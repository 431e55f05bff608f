/** The remote folder store as the server sees it: a listing of folder nodes,
    the parent-scoped lookup `findFolder`, and the walk of `findNestedFolder`
    described as a pure function of the listing. */
module Drive {
  import opened Common

  /** Parent sentinel the walk starts from. */
  const Root := "root"

  /** Base of the public view link built for every uploaded file. */
  const ViewPrefix := "https://drive.google.com/file/d/"
  const ViewSuffix := "/view"

  datatype FolderNode = FolderNode(id: string, name: string, parentId: string)

  /** A file object stored in a folder. */
  datatype DriveFile = DriveFile(id: string, name: string, parentId: string)

  /** One folder listing request: a name searched under one parent. */
  datatype Lookup = Lookup(name: string, parent: string)

  predicate Matches(n: FolderNode, name: string, parent: string)
  {
    n.name == name && n.parentId == parent
  }

  /** Index of the first node from `from` on whose name and parent match,
      or `|folders|` when there is none. */
  function FirstMatch(folders: seq<FolderNode>, name: string, parent: string, from: nat): (k: nat)
    requires from <= |folders|
    ensures from <= k <= |folders|
    ensures k < |folders| ==> Matches(folders[k], name, parent)
    ensures forall j :: from <= j < k ==> !Matches(folders[j], name, parent)
    decreases |folders| - from
  {
    if from == |folders| then from
    else if Matches(folders[from], name, parent) then from
    else FirstMatch(folders, name, parent, from + 1)
  }

  /** `findFolder(name, parent)`: the id of the first listed folder whose name
      and parent equal the arguments exactly, or null. */
  function FindFolder(folders: seq<FolderNode>, name: string, parent: string): Option<string>
  {
    var k := FirstMatch(folders, name, parent, 0);
    if k < |folders| then Some(folders[k].id) else None
  }

  /** The lookup answers null exactly when no folder matches, and otherwise
      the id of the first, in listing order, that does. */
  lemma FindFolderFirst(folders: seq<FolderNode>, name: string, parent: string)
    ensures var r := FindFolder(folders, name, parent);
      (r.None? <==> forall i :: 0 <= i < |folders| ==> !Matches(folders[i], name, parent)) &&
      (r.Some? ==>
        exists k :: 0 <= k < |folders| && Matches(folders[k], name, parent) && folders[k].id == r.value &&
          forall j :: 0 <= j < k ==> !Matches(folders[j], name, parent))
  {
    var k := FirstMatch(folders, name, parent, 0);
    if k < |folders| {
      assert Matches(folders[k], name, parent);
    }
  }

  /** Appending a node never changes an existing answer; it answers a
      lookup that had no answer exactly when it matches. */
  lemma FindFolderAppend(folders: seq<FolderNode>, n: FolderNode, name: string, parent: string)
    ensures FindFolder(folders + [n], name, parent) ==
      if FindFolder(folders, name, parent).Some? then FindFolder(folders, name, parent)
      else if Matches(n, name, parent) then Some(n.id)
      else None
  {
    var all := folders + [n];
    var k := FirstMatch(folders, name, parent, 0);
    var k' := FirstMatch(all, name, parent, 0);
    assert forall j :: 0 <= j < |folders| ==> all[j] == folders[j];
    if k < |folders| {
      assert all[k] == folders[k];
    } else {
      assert k' >= |folders| by {
        forall j | 0 <= j < |folders| ensures !Matches(all[j], name, parent) {}
      }
      assert all[|folders|] == n;
      if Matches(n, name, parent) {
        assert k' == |folders|;
      }
    }
  }

  /** Outcome of walking a path: the id of its final folder, or the index of
      the first segment that has no folder. */
  datatype Resolution = Resolved(id: string) | Missing(at: nat)

  /** The loop of `findNestedFolder` from `parent` on: look up each segment
      under the folder found for the one before, and stop at the first miss. */
  function Resolve(folders: seq<FolderNode>, segs: seq<string>, parent: string): Resolution
    decreases |segs|
  {
    if segs == [] then Resolved(parent)
    else
      var r := FindFolder(folders, segs[0], parent);
      if !Truthy(r) then Missing(0)
      else match Resolve(folders, segs[1..], r.value)
        case Resolved(id) => Resolved(id)
        case Missing(k) => Missing(k + 1)
  }

  /** The folder listings that walk issues, in order. */
  function Queries(folders: seq<FolderNode>, segs: seq<string>, parent: string): seq<Lookup>
    decreases |segs|
  {
    if segs == [] then []
    else
      var r := FindFolder(folders, segs[0], parent);
      [Lookup(segs[0], parent)] + if Truthy(r) then Queries(folders, segs[1..], r.value) else []
  }

  /** The parent under which segment `i` of a chain is looked up. */
  function ParentAt(parent: string, ids: seq<string>, i: nat): string
    requires i <= |ids|
  {
    if i == 0 then parent else ids[i - 1]
  }

  /** `ids` are the folders found for the first `|ids|` segments one after
      another: each is the first match of its segment under the previous
      one, and usable. */
  ghost predicate FoundUpTo(folders: seq<FolderNode>, segs: seq<string>, parent: string, ids: seq<string>)
  {
    |ids| <= |segs| &&
    forall i :: 0 <= i < |ids| ==>
      FindFolder(folders, segs[i], ParentAt(parent, ids, i)) == Some(ids[i]) && ids[i] != ""
  }

  /** Every segment of the path has its folder. */
  ghost predicate IsChain(folders: seq<FolderNode>, segs: seq<string>, parent: string, ids: seq<string>)
  {
    |ids| == |segs| && FoundUpTo(folders, segs, parent, ids)
  }

  lemma FoundUpToTail(folders: seq<FolderNode>, segs: seq<string>, parent: string, ids: seq<string>)
    requires |ids| > 0 && FoundUpTo(folders, segs, parent, ids)
    ensures FindFolder(folders, segs[0], parent) == Some(ids[0]) && ids[0] != ""
    ensures FoundUpTo(folders, segs[1..], ids[0], ids[1..])
  {
    assert ParentAt(parent, ids, 0) == parent;
    forall i | 0 <= i < |ids| - 1
      ensures FindFolder(folders, segs[1..][i], ParentAt(ids[0], ids[1..], i)) == Some(ids[1..][i])
    {
      assert ParentAt(ids[0], ids[1..], i) == ParentAt(parent, ids, i + 1);
    }
  }

  /** One step of the walk after a usable match. */
  lemma WalkStep(folders: seq<FolderNode>, segs: seq<string>, parent: string, id: string)
    requires |segs| > 0 && FindFolder(folders, segs[0], parent) == Some(id) && id != ""
    ensures Resolve(folders, segs, parent) ==
      match Resolve(folders, segs[1..], id)
      case Resolved(last) => Resolved(last)
      case Missing(k) => Missing(k + 1)
    ensures Queries(folders, segs, parent) == [Lookup(segs[0], parent)] + Queries(folders, segs[1..], id)
  {
  }

  /** The listings after the first are those of the walk from the folder
      found first. */
  lemma QueriesShift(q: seq<Lookup>, q': seq<Lookup>, segs: seq<string>, parent: string, ids: seq<string>, n: nat)
    requires 0 < |ids| && n <= |ids| && n < |segs| && |q'| >= n && q == [Lookup(segs[0], parent)] + q'
    requires forall j :: 0 <= j < n ==> q'[j] == Lookup(segs[1..][j], ParentAt(ids[0], ids[1..], j))
    ensures forall i :: 0 <= i <= n ==> q[i] == Lookup(segs[i], ParentAt(parent, ids, i))
  {
    forall i | 0 < i <= n ensures q[i] == Lookup(segs[i], ParentAt(parent, ids, i)) {
      assert q[i] == q'[i - 1];
      assert ParentAt(ids[0], ids[1..], i - 1) == ParentAt(parent, ids, i);
    }
  }

  /** When every segment is found under the one before it (the first under
      `parent`), the walk returns the id of the last segment and lists each
      segment exactly once, in order. */
  lemma {:induction false} ResolveFollowsChain(folders: seq<FolderNode>, segs: seq<string>, parent: string, ids: seq<string>)
    requires |segs| > 0 && IsChain(folders, segs, parent, ids)
    ensures Resolve(folders, segs, parent) == Resolved(ids[|ids| - 1])
    ensures |Queries(folders, segs, parent)| == |segs|
    ensures forall i :: 0 <= i < |segs| ==>
      Queries(folders, segs, parent)[i] == Lookup(segs[i], ParentAt(parent, ids, i))
  {
    FoundUpToTail(folders, segs, parent, ids);
    WalkStep(folders, segs, parent, ids[0]);
    var q := Queries(folders, segs, parent);
    var q' := Queries(folders, segs[1..], ids[0]);
    if |segs| > 1 {
      ResolveFollowsChain(folders, segs[1..], ids[0], ids[1..]);
      QueriesShift(q, q', segs, parent, ids, |segs| - 1);
    } else {
      assert segs[1..] == [];
    }
  }

  lemma MissShift(folders: seq<FolderNode>, segs: seq<string>, parent: string, ids: seq<string>)
    requires 0 < |ids| < |segs|
    requires !Truthy(FindFolder(folders, segs[|ids|], ParentAt(parent, ids, |ids|)))
    ensures !Truthy(FindFolder(folders, segs[1..][|ids[1..]|], ParentAt(ids[0], ids[1..], |ids[1..]|)))
  {
    assert segs[1..][|ids| - 1] == segs[|ids|];
    assert ParentAt(ids[0], ids[1..], |ids| - 1) == ParentAt(parent, ids, |ids|);
  }

  /** When the first `|ids|` segments are found but the next is not, the
      walk reports that segment missing and issues exactly `|ids| + 1`
      listings: none for the segments after the miss. */
  lemma {:induction false} ResolveStopsAtMiss(folders: seq<FolderNode>, segs: seq<string>, parent: string, ids: seq<string>)
    requires |ids| < |segs| && FoundUpTo(folders, segs, parent, ids)
    requires !Truthy(FindFolder(folders, segs[|ids|], ParentAt(parent, ids, |ids|)))
    ensures Resolve(folders, segs, parent) == Missing(|ids|)
    ensures |Queries(folders, segs, parent)| == |ids| + 1
    ensures forall i :: 0 <= i <= |ids| ==>
      Queries(folders, segs, parent)[i] == Lookup(segs[i], ParentAt(parent, ids, i))
    decreases |segs|
  {
    var k := |ids|;
    if k > 0 {
      FoundUpToTail(folders, segs, parent, ids);
      WalkStep(folders, segs, parent, ids[0]);
      MissShift(folders, segs, parent, ids);
      ResolveStopsAtMiss(folders, segs[1..], ids[0], ids[1..]);
      QueriesShift(Queries(folders, segs, parent), Queries(folders, segs[1..], ids[0]), segs, parent, ids, k);
    }
  }

  /** A missing segment lies inside the path and is the last one listed; a
      resolved walk lists every segment; and a walk over at least one
      segment that resolves ends at a non-empty id. */
  lemma {:induction false} ResolveShape(folders: seq<FolderNode>, segs: seq<string>, parent: string)
    ensures Resolve(folders, segs, parent).Missing? ==> Resolve(folders, segs, parent).at < |segs|
    ensures Resolve(folders, segs, parent).Missing? ==>
      |Queries(folders, segs, parent)| == Resolve(folders, segs, parent).at + 1
    ensures Resolve(folders, segs, parent).Resolved? ==> |Queries(folders, segs, parent)| == |segs|
    ensures segs != [] && Resolve(folders, segs, parent).Resolved? ==> Resolve(folders, segs, parent).id != ""
    decreases |segs|
  {
    if segs != [] {
      var r := FindFolder(folders, segs[0], parent);
      if Truthy(r) {
        ResolveShape(folders, segs[1..], r.value);
      }
    }
  }

  /** The view link of an object: a fixed prefix and suffix around its id. */
  function ViewUrl(id: string): (url: string)
    ensures |url| == |ViewPrefix| + |id| + |ViewSuffix|
    ensures url[..|ViewPrefix|] == ViewPrefix
    ensures url[|ViewPrefix|..|url| - |ViewSuffix|] == id
    ensures url[|url| - |ViewSuffix|..] == ViewSuffix
  {
    ViewPrefix + id + ViewSuffix
  }

  /** Distinct objects get distinct links, so a link names its object. */
  lemma ViewUrlInjective(a: string, b: string)
    requires ViewUrl(a) == ViewUrl(b)
    ensures a == b
  {
    var u := ViewUrl(a);
    assert a == u[|ViewPrefix|..|u| - |ViewSuffix|];
  }
}
