/**
 * The shapes the viewer's scene registry works with: scene descriptors, the
 * groups that list them (with plain strings as section headers) and the
 * per-title descriptor kinds of the Source-engine scene set.
 */
module SceneBase {
  import opened Wrappers

  /** One byte of the save-state scratch buffer. */
  newtype byte = b: int | 0 <= b < 256

  /** The eight `*SceneDesc` classes of the Source-engine scene set. */
  datatype Title =
    | TeamFortress2
    | CGE
    | HalfLife2Ep2
    | HalfLife2
    | CounterStrikeSource
    | CounterStrikeGO
    | DayOfDefeat
    | GarrysMod

  /**
   * A scene descriptor: which title's loader builds it, its short id inside
   * its group and the name shown in the scene list.
   */
  datatype SceneDesc = SceneDesc(title: Title, id: string, name: string)

  /** An element of a group's `sceneDescs` list: a section header string or a descriptor. */
  datatype GroupEntry = Header(text: string) | Desc(desc: SceneDesc)

  /**
   * A scene group. `sceneIdMap` lists `(altSceneId, sceneId)` alias pairs in
   * the iteration order of the source's `Map`, or is absent.
   */
  datatype SceneGroup = SceneGroup(
    id: string,
    name: string,
    sceneDescs: seq<GroupEntry>,
    sceneIdMap: Option<seq<(string, string)>>)

  /** An element of the top-level `sceneGroups` list: a header string or a group. */
  datatype GroupListEntry = GroupHeader(text: string) | Group(group: SceneGroup)

  /** The descriptors of a group, in list order, with the headers dropped. */
  function DescsOf(entries: seq<GroupEntry>): (r: seq<SceneDesc>)
  {
    if entries == [] then []
    else
      var last := entries[|entries| - 1];
      var front := entries[..|entries| - 1];
      assert entries == front + [last];
      DescsOf(front) + (if last.Desc? then [last.desc] else [])
  }

  /** The section headers of a group, in list order. */
  function HeadersOf(entries: seq<GroupEntry>): (r: seq<string>)
  {
    if entries == [] then []
    else
      var last := entries[|entries| - 1];
      var front := entries[..|entries| - 1];
      assert entries == front + [last];
      HeadersOf(front) + (if last.Header? then [last.text] else [])
  }

  /** `DescsOf` keeps exactly the descriptor entries. */
  lemma {:induction false} DescsOfMembers(entries: seq<GroupEntry>)
    ensures forall d :: d in DescsOf(entries) <==> Desc(d) in entries
  {
    if entries != [] {
      var front := entries[..|entries| - 1];
      assert entries == front + [entries[|entries| - 1]];
      DescsOfMembers(front);
    }
  }

  /** Descriptor ids pairwise distinct. */
  predicate IdsDistinct(ds: seq<SceneDesc>)
  {
    forall i, j :: 0 <= i < j < |ds| ==> ds[i].id != ds[j].id
  }

  /** A run of descriptors as list entries. */
  function AsEntries(ds: seq<SceneDesc>): (r: seq<GroupEntry>)
    ensures |r| == |ds| && forall i :: 0 <= i < |ds| ==> r[i] == Desc(ds[i])
  {
    seq(|ds|, i requires 0 <= i < |ds| => Desc(ds[i]))
  }

  /** A section of a group's list: a header followed by its run of descriptors. */
  function Section(header: string, ds: seq<SceneDesc>): (r: seq<GroupEntry>)
    ensures |r| == 1 + |ds| && r[0] == Header(header)
  {
    [Header(header)] + AsEntries(ds)
  }

  lemma {:induction false} DescsOfAppend(a: seq<GroupEntry>, b: seq<GroupEntry>)
    ensures DescsOf(a + b) == DescsOf(a) + DescsOf(b)
    ensures HeadersOf(a + b) == HeadersOf(a) + HeadersOf(b)
  {
    if b != [] {
      var b' := b[..|b| - 1];
      assert (a + b)[..|a + b| - 1] == a + b';
      DescsOfAppend(a, b');
    } else {
      assert a + b == a;
    }
  }

  lemma {:induction false} DescsOfEntries(ds: seq<SceneDesc>)
    ensures DescsOf(AsEntries(ds)) == ds
    ensures HeadersOf(AsEntries(ds)) == []
  {
    if ds != [] {
      var front := ds[..|ds| - 1];
      assert AsEntries(ds)[..|ds| - 1] == AsEntries(front);
      DescsOfEntries(front);
    }
  }

  lemma DescsOfHeader(h: string)
    ensures DescsOf([Header(h)]) == [] && HeadersOf([Header(h)]) == [h]
  {
    assert [Header(h)][..0] == [];
  }

  /** A section contributes its descriptors and its one header. */
  lemma SectionSplit(header: string, ds: seq<SceneDesc>)
    ensures DescsOf(Section(header, ds)) == ds && HeadersOf(Section(header, ds)) == [header]
  {
    DescsOfHeader(header);
    DescsOfEntries(ds);
    DescsOfAppend([Header(header)], AsEntries(ds));
  }

  lemma {:induction false} DescsAndHeadersPartition(entries: seq<GroupEntry>)
    ensures |DescsOf(entries)| + |HeadersOf(entries)| == |entries|
  {
    if entries != [] {
      DescsAndHeadersPartition(entries[..|entries| - 1]);
    }
  }
}
