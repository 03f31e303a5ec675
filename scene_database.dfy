/**
 * The scene registry: the three lookup tables the viewer builds from its
 * list of scene groups (descriptor to group, descriptor to canonical id,
 * id to descriptor, the last including alias ids), as a specification over
 * values and as the class whose constructor fills them in place.
 */
module SceneDatabase {
  import opened Wrappers
  import opened SceneBase

  datatype Registry = Registry(
    sceneDescToGroup: map<SceneDesc, SceneGroup>,
    sceneDescToId: map<SceneDesc, string>,
    idToSceneDesc: map<string, SceneDesc>)

  const EmptyRegistry: Registry := Registry(map[], map[], map[])

  /** The canonical id of a descriptor: its group's id, `/`, its own id. */
  function MakeSceneDescId(g: SceneGroup, d: SceneDesc): string
  {
    g.id + "/" + d.id
  }

  /** `addSceneDesc`: the descriptor is filed under its group and its canonical id. */
  function AddSceneDesc(r: Registry, g: SceneGroup, d: SceneDesc): Registry
    requires Desc(d) in g.sceneDescs
  {
    var id := MakeSceneDescId(g, d);
    Registry(r.sceneDescToGroup[d := g], r.sceneDescToId[d := id], r.idToSceneDesc[id := d])
  }

  /** Registers the descriptor entries of a prefix of `g.sceneDescs`, in order; headers are skipped. */
  function AddEntries(r: Registry, g: SceneGroup, n: nat): Registry
    requires n <= |g.sceneDescs|
  {
    if n == 0 then r
    else
      var r' := AddEntries(r, g, n - 1);
      var e := g.sceneDescs[n - 1];
      if e.Desc? then AddSceneDesc(r', g, e.desc) else r'
  }

  /**
   * Registers the first `n` alias pairs of `g`: `group/alt` names the
   * descriptor already registered as `group/target`; a missing target is a
   * failed assertion in the source, here `None`.
   */
  function AddAliases(r: Registry, g: SceneGroup, pairs: seq<(string, string)>): Option<Registry>
  {
    if pairs == [] then Some(r)
    else
      match AddAliases(r, g, pairs[..|pairs| - 1])
      case None => None
      case Some(r') =>
        var (altSceneId, sceneId) := pairs[|pairs| - 1];
        var altSceneDescId := g.id + "/" + altSceneId;
        var sceneDescId := g.id + "/" + sceneId;
        if sceneDescId in r'.idToSceneDesc then
          Some(r'.(idToSceneDesc := r'.idToSceneDesc[altSceneDescId := r'.idToSceneDesc[sceneDescId]]))
        else None
  }

  /** One group: its descriptors, then its aliases if it has an alias map. */
  function AddGroup(r: Registry, g: SceneGroup): Option<Registry>
  {
    var r' := AddEntries(r, g, |g.sceneDescs|);
    if g.sceneIdMap.None? then Some(r') else AddAliases(r', g, g.sceneIdMap.value)
  }

  /** The registry built from a group list, in order; header strings are skipped. */
  function AddGroups(r: Registry, groups: seq<GroupListEntry>): Option<Registry>
  {
    if groups == [] then Some(r)
    else
      match AddGroups(r, groups[..|groups| - 1])
      case None => None
      case Some(r') =>
        var e := groups[|groups| - 1];
        if e.Group? then AddGroup(r', e.group) else Some(r')
  }

  /** `getSceneDescForId`: the descriptor registered under an id, or null. */
  function SceneDescForId(r: Registry, sceneDescId: string): (res: Option<SceneDesc>)
    ensures res.Some? <==> sceneDescId in r.idToSceneDesc
    ensures res.Some? ==> res.value == r.idToSceneDesc[sceneDescId]
  {
    if sceneDescId in r.idToSceneDesc then Some(r.idToSceneDesc[sceneDescId]) else None
  }

  /**
   * The reverse tables agree: every registered descriptor has a group that
   * lists it and its canonical id in that group.
   */
  ghost predicate Consistent(r: Registry)
  {
    && r.sceneDescToId.Keys == r.sceneDescToGroup.Keys
    && forall d :: d in r.sceneDescToId ==>
         && Desc(d) in r.sceneDescToGroup[d].sceneDescs
         && r.sceneDescToId[d] == MakeSceneDescId(r.sceneDescToGroup[d], d)
  }

  /** The registry as a class: the constructor and `addSceneDesc` update the three tables in place. */
  class SceneDatabase {
    const sceneGroups: seq<GroupListEntry>
    var sceneDescToGroup: map<SceneDesc, SceneGroup>
    var sceneDescToId: map<SceneDesc, string>
    var idToSceneDesc: map<string, SceneDesc>
    /** Whether an `onchanged` callback is installed. */
    var onchanged: bool
    /** How many times `onchanged` has been called. */
    ghost var notifications: nat

    function Tables(): Registry
      reads this
    {
      Registry(sceneDescToGroup, sceneDescToId, idToSceneDesc)
    }

    /** Registers every group of the list; the source's alias assertion demands that each alias target exists. */
    constructor (groups: seq<GroupListEntry>)
      requires AddGroups(EmptyRegistry, groups).Some?
      ensures sceneGroups == groups
      ensures Tables() == AddGroups(EmptyRegistry, groups).value
      ensures !onchanged && notifications == 0
    {
      sceneGroups := groups;
      sceneDescToGroup, sceneDescToId, idToSceneDesc := map[], map[], map[];
      onchanged := false;
      notifications := 0;
      new;
      var i := 0;
      while i < |groups|
        invariant 0 <= i <= |groups|
        invariant AddGroups(EmptyRegistry, groups[..i]) == Some(Tables())
        invariant !onchanged && notifications == 0
      {
        AddGroupsPrefix(EmptyRegistry, groups, i + 1);
        assert groups[..i + 1][..i] == groups[..i];
        var e := groups[i];
        if e.Group? {
          var sceneGroup := e.group;
          ghost var before := Tables();
          var j := 0;
          while j < |sceneGroup.sceneDescs|
            invariant 0 <= j <= |sceneGroup.sceneDescs|
            invariant Tables() == AddEntries(before, sceneGroup, j)
            invariant !onchanged && notifications == 0
          {
            var entry := sceneGroup.sceneDescs[j];
            if entry.Desc? {
              AddSceneDescTo(sceneGroup, entry.desc);
            }
            j := j + 1;
          }
          if sceneGroup.sceneIdMap.Some? {
            var pairs := sceneGroup.sceneIdMap.value;
            ghost var registered := Tables();
            assert AddAliases(registered, sceneGroup, pairs).Some?;
            var k := 0;
            while k < |pairs|
              invariant 0 <= k <= |pairs|
              invariant AddAliases(registered, sceneGroup, pairs[..k]) == Some(Tables())
              invariant !onchanged && notifications == 0
            {
              AddAliasesPrefix(registered, sceneGroup, pairs, k + 1);
              assert pairs[..k + 1][..k] == pairs[..k];
              var (altSceneId, sceneId) := pairs[k];
              var altSceneDescId := sceneGroup.id + "/" + altSceneId;
              var sceneDescId := sceneGroup.id + "/" + sceneId;
              var sceneDesc := idToSceneDesc[sceneDescId];
              idToSceneDesc := idToSceneDesc[altSceneDescId := sceneDesc];
              k := k + 1;
            }
            assert pairs[..k] == pairs;
          }
        }
        i := i + 1;
      }
      assert groups[..i] == groups;
    }

    /** `addSceneDesc`; fires `onchanged` once when it is installed. */
    method AddSceneDescTo(sceneGroup: SceneGroup, sceneDesc: SceneDesc)
      requires Desc(sceneDesc) in sceneGroup.sceneDescs
      modifies this
      ensures Tables() == AddSceneDesc(old(Tables()), sceneGroup, sceneDesc)
      ensures onchanged == old(onchanged)
      ensures notifications == old(notifications) + (if onchanged then 1 else 0)
    {
      var id := MakeSceneDescId(sceneGroup, sceneDesc);
      sceneDescToGroup := sceneDescToGroup[sceneDesc := sceneGroup];
      sceneDescToId := sceneDescToId[sceneDesc := id];
      idToSceneDesc := idToSceneDesc[id := sceneDesc];
      if onchanged {
        notifications := notifications + 1;
      }
    }

    /** Installs or removes the `onchanged` callback. */
    method SetOnChanged(installed: bool)
      modifies this`onchanged
      ensures onchanged == installed
    {
      onchanged := installed;
    }

    /** `getSceneDescForId`. */
    function GetSceneDescForId(sceneDescId: string): (res: Option<SceneDesc>)
      reads this
      ensures res == SceneDescForId(Tables(), sceneDescId)
    {
      if sceneDescId in idToSceneDesc then Some(idToSceneDesc[sceneDescId]) else None
    }

    /** `getSceneDescId`; the source's non-null assertion demands a registered descriptor. */
    function GetSceneDescId(sceneDesc: SceneDesc): string
      reads this
      requires sceneDesc in sceneDescToId
    {
      sceneDescToId[sceneDesc]
    }

    /** `getSceneDescGroup`; likewise for a registered descriptor. */
    function GetSceneDescGroup(sceneDesc: SceneDesc): SceneGroup
      reads this
      requires sceneDesc in sceneDescToGroup
    {
      sceneDescToGroup[sceneDesc]
    }
  }

  // ---------------------------------------------------------------------
  // Properties
  // ---------------------------------------------------------------------

  lemma {:induction false} AddGroupsPrefix(r: Registry, groups: seq<GroupListEntry>, n: nat)
    requires n <= |groups| && AddGroups(r, groups).Some?
    ensures AddGroups(r, groups[..n]).Some?
    decreases |groups|
  {
    if n < |groups| {
      var front := groups[..|groups| - 1];
      assert front[..n] == groups[..n];
      AddGroupsPrefix(r, front, n);
    } else {
      assert groups[..n] == groups;
    }
  }

  lemma {:induction false} AddAliasesPrefix(r: Registry, g: SceneGroup, pairs: seq<(string, string)>, n: nat)
    requires n <= |pairs| && AddAliases(r, g, pairs).Some?
    ensures AddAliases(r, g, pairs[..n]).Some?
    decreases |pairs|
  {
    if n < |pairs| {
      var front := pairs[..|pairs| - 1];
      assert front[..n] == pairs[..n];
      AddAliasesPrefix(r, g, front, n);
    } else {
      assert pairs[..n] == pairs;
    }
  }

  /**
   * After `addSceneDesc` the canonical id names the descriptor in both
   * directions and the descriptor is filed under the group; every other
   * entry of the three tables is unchanged.
   */
  lemma AddSceneDescEffect(r: Registry, g: SceneGroup, d: SceneDesc)
    requires Desc(d) in g.sceneDescs
    ensures var r' := AddSceneDesc(r, g, d);
      && SceneDescForId(r', g.id + "/" + d.id) == Some(d)
      && r'.sceneDescToId[d] == g.id + "/" + d.id
      && r'.sceneDescToGroup[d] == g
      && (forall id :: id != g.id + "/" + d.id ==> SceneDescForId(r', id) == SceneDescForId(r, id))
      && (forall d' :: d' != d ==> (d' in r'.sceneDescToId <==> d' in r.sceneDescToId))
  {
  }

  /** The tables stay consistent as descriptors are added. */
  lemma {:induction false} AddEntriesConsistent(r: Registry, g: SceneGroup, n: nat)
    requires Consistent(r) && n <= |g.sceneDescs|
    ensures Consistent(AddEntries(r, g, n))
  {
    if n > 0 {
      AddEntriesConsistent(r, g, n - 1);
    }
  }

  /** Aliases only add ids: the descriptor-to-id and descriptor-to-group tables, and so reverse lookups, stay canonical. */
  lemma {:induction false} AliasesKeepReverseTables(r: Registry, g: SceneGroup, pairs: seq<(string, string)>)
    requires AddAliases(r, g, pairs).Some?
    ensures AddAliases(r, g, pairs).value.sceneDescToId == r.sceneDescToId
    ensures AddAliases(r, g, pairs).value.sceneDescToGroup == r.sceneDescToGroup
    ensures r.idToSceneDesc.Keys <= AddAliases(r, g, pairs).value.idToSceneDesc.Keys
  {
    if pairs != [] {
      AliasesKeepReverseTables(r, g, pairs[..|pairs| - 1]);
    }
  }

  /** Construction fails exactly when an alias target is not registered yet. */
  lemma AliasToMissingTargetFails(r: Registry, g: SceneGroup, pairs: seq<(string, string)>, alt: string, target: string)
    requires AddAliases(r, g, pairs).Some?
    requires g.id + "/" + target !in AddAliases(r, g, pairs).value.idToSceneDesc
    ensures AddAliases(r, g, pairs + [(alt, target)]).None?
  {
    assert (pairs + [(alt, target)])[..|pairs|] == pairs;
  }

  /** Ids under one group prefix are equal only when the suffixes are. */
  lemma PrefixedIdsInjective(group: string, a: string, b: string)
    ensures group + "/" + a == group + "/" + b ==> a == b
  {
    if group + "/" + a == group + "/" + b {
      assert a == (group + "/" + a)[|group| + 1..];
      assert b == (group + "/" + b)[|group| + 1..];
    }
  }

  /** Aliases name no new descriptor: every id names a descriptor some id named before. */
  lemma {:induction false} AliasesAddNoDescriptor(r: Registry, g: SceneGroup, pairs: seq<(string, string)>)
    requires AddAliases(r, g, pairs).Some?
    ensures AddAliases(r, g, pairs).value.idToSceneDesc.Values <= r.idToSceneDesc.Values
  {
    if pairs != [] {
      var front := pairs[..|pairs| - 1];
      AliasesAddNoDescriptor(r, g, front);
      var m := AddAliases(r, g, front).value.idToSceneDesc;
      var (alt, target) := pairs[|pairs| - 1];
      assert m[g.id + "/" + target] in m.Values;
    }
  }

  /** Ids that are none of the group's aliases keep what they named. */
  lemma {:induction false} AliasesChangeOnlyAlts(r: Registry, g: SceneGroup, pairs: seq<(string, string)>, id: string)
    requires AddAliases(r, g, pairs).Some?
    requires forall i :: 0 <= i < |pairs| ==> id != g.id + "/" + pairs[i].0
    ensures SceneDescForId(AddAliases(r, g, pairs).value, id) == SceneDescForId(r, id)
  {
    if pairs != [] {
      AliasesChangeOnlyAlts(r, g, pairs[..|pairs| - 1], id);
    }
  }

  /**
   * With distinct alias names none of which is itself a target (as in the
   * source's id maps), every alias id ends up naming the descriptor its
   * target id named before the aliases were added.
   */
  lemma {:induction false} AliasesResolveToTargets(r: Registry, g: SceneGroup, pairs: seq<(string, string)>)
    requires AddAliases(r, g, pairs).Some?
    requires forall i, j :: 0 <= i < j < |pairs| ==> pairs[i].0 != pairs[j].0
    requires forall i, j :: 0 <= i < |pairs| && 0 <= j < |pairs| ==> pairs[i].0 != pairs[j].1
    ensures forall i :: 0 <= i < |pairs| ==>
      && SceneDescForId(r, g.id + "/" + pairs[i].1).Some?
      && SceneDescForId(AddAliases(r, g, pairs).value, g.id + "/" + pairs[i].0) == SceneDescForId(r, g.id + "/" + pairs[i].1)
  {
    if pairs != [] {
      var n := |pairs| - 1;
      var front := pairs[..n];
      ResolveStep(r, g, pairs);
      AliasesResolveToTargets(r, g, front);
      var (alt, target) := pairs[n];
      forall i | 0 <= i < n
        ensures g.id + "/" + target != g.id + "/" + front[i].0
        ensures g.id + "/" + front[i].0 != g.id + "/" + alt
      {
        PrefixedIdsInjective(g.id, target, front[i].0);
        PrefixedIdsInjective(g.id, front[i].0, alt);
      }
      AliasesChangeOnlyAlts(r, g, front, g.id + "/" + target);
    }
  }

  /**
   * An alias whose pair is the last one for its name names the descriptor
   * its target id named when that pair was processed.
   */
  lemma {:induction false} AliasResolvesWhenProcessed(r: Registry, g: SceneGroup, pairs: seq<(string, string)>, i: nat)
    requires AddAliases(r, g, pairs).Some? && i < |pairs|
    requires forall j :: i < j < |pairs| ==> pairs[j].0 != pairs[i].0
    ensures AddAliases(r, g, pairs[..i]).Some?
    ensures SceneDescForId(AddAliases(r, g, pairs).value, g.id + "/" + pairs[i].0) ==
            SceneDescForId(AddAliases(r, g, pairs[..i]).value, g.id + "/" + pairs[i].1)
    ensures SceneDescForId(AddAliases(r, g, pairs[..i]).value, g.id + "/" + pairs[i].1).Some?
    decreases |pairs|
  {
    var n := |pairs| - 1;
    var front := pairs[..n];
    ResolveStep(r, g, pairs);
    if i < n {
      assert front[..i] == pairs[..i];
      AliasResolvesWhenProcessed(r, g, front, i);
      PrefixedIdsInjective(g.id, pairs[i].0, pairs[n].0);
    } else {
      assert front == pairs[..i];
    }
  }

  /** The last alias pair is added to what the earlier pairs built. */
  lemma ResolveStep(r: Registry, g: SceneGroup, pairs: seq<(string, string)>)
    requires pairs != [] && AddAliases(r, g, pairs).Some?
    ensures var front := AddAliases(r, g, pairs[..|pairs| - 1]);
      var (alt, target) := pairs[|pairs| - 1];
      && front.Some? && g.id + "/" + target in front.value.idToSceneDesc
      && AddAliases(r, g, pairs).value.idToSceneDesc ==
           front.value.idToSceneDesc[g.id + "/" + alt := front.value.idToSceneDesc[g.id + "/" + target]]
  {
  }

  /** Every id, canonical or alias, names a descriptor that is filed under a group. */
  ghost predicate IdsNameFiledDescs(r: Registry)
  {
    forall id :: id in r.idToSceneDesc ==> r.idToSceneDesc[id] in r.sceneDescToGroup
  }

  /** `addSceneDesc` keeps every id naming a filed descriptor. */
  lemma AddSceneDescNamesFiled(r: Registry, g: SceneGroup, d: SceneDesc)
    requires IdsNameFiledDescs(r) && Desc(d) in g.sceneDescs
    ensures IdsNameFiledDescs(AddSceneDesc(r, g, d))
  {
  }

  /** Building the registry from groups keeps every id naming a filed descriptor, aliases included. */
  lemma {:induction false} AddGroupsNamesFiled(r: Registry, groups: seq<GroupListEntry>)
    requires IdsNameFiledDescs(r) && AddGroups(r, groups).Some?
    ensures IdsNameFiledDescs(AddGroups(r, groups).value)
  {
    if groups != [] {
      var front := groups[..|groups| - 1];
      AddGroupsPrefix(r, groups, |groups| - 1);
      AddGroupsNamesFiled(r, front);
      var r' := AddGroups(r, front).value;
      var e := groups[|groups| - 1];
      if e.Group? {
        AddEntriesNamesFiled(r', e.group, |e.group.sceneDescs|);
        if e.group.sceneIdMap.Some? {
          var r'' := AddEntries(r', e.group, |e.group.sceneDescs|);
          AliasesKeepReverseTables(r'', e.group, e.group.sceneIdMap.value);
          AliasesAddNoDescriptor(r'', e.group, e.group.sceneIdMap.value);
          var m := AddAliases(r'', e.group, e.group.sceneIdMap.value).value.idToSceneDesc;
          forall id | id in m
            ensures m[id] in r''.sceneDescToGroup
          {
            assert m[id] in m.Values;
          }
        }
      }
    }
  }

  lemma {:induction false} AddEntriesNamesFiled(r: Registry, g: SceneGroup, n: nat)
    requires IdsNameFiledDescs(r) && n <= |g.sceneDescs|
    ensures IdsNameFiledDescs(AddEntries(r, g, n))
  {
    if n > 0 {
      AddEntriesNamesFiled(r, g, n - 1);
      var e := g.sceneDescs[n - 1];
      if e.Desc? {
        AddSceneDescNamesFiled(AddEntries(r, g, n - 1), g, e.desc);
      }
    }
  }

  /** Building the registry keeps the tables consistent. */
  lemma {:induction false} AddGroupsConsistent(r: Registry, groups: seq<GroupListEntry>)
    requires Consistent(r) && AddGroups(r, groups).Some?
    ensures Consistent(AddGroups(r, groups).value)
  {
    if groups != [] {
      var front := groups[..|groups| - 1];
      AddGroupsPrefix(r, groups, |groups| - 1);
      assert groups[..|groups| - 1] == front;
      AddGroupsConsistent(r, front);
      var r' := AddGroups(r, front).value;
      var e := groups[|groups| - 1];
      if e.Group? {
        AddEntriesConsistent(r', e.group, |e.group.sceneDescs|);
        if e.group.sceneIdMap.Some? {
          AliasesKeepReverseTables(AddEntries(r', e.group, |e.group.sceneDescs|), e.group, e.group.sceneIdMap.value);
        }
      }
    }
  }

  /**
   * The descriptors registered from a group are exactly its descriptor
   * entries: header strings are skipped.
   */
  lemma {:induction false} AddEntriesRegistersDescs(r: Registry, g: SceneGroup, n: nat)
    requires n <= |g.sceneDescs|
    ensures AddEntries(r, g, n).sceneDescToId.Keys ==
      r.sceneDescToId.Keys + set d | d in DescsOf(g.sceneDescs[..n])
  {
    DescsOfMembers(g.sceneDescs[..n]);
    if n > 0 {
      AddEntriesRegistersDescs(r, g, n - 1);
      DescsOfMembers(g.sceneDescs[..n - 1]);
      assert g.sceneDescs[..n] == g.sceneDescs[..n - 1] + [g.sceneDescs[n - 1]];
    }
  }
}
