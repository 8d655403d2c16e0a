/** The folder view: one root node per configured music folder that exists,
    with a node per sub-directory and each song attached to the node of its
    directory. The tree is built as a value; the source's in-place edits of
    Children and Songs become updates of the enclosing value. */
module FolderTree {
  import opened Text
  import opened Paths
  import opened Models
  import opened Wrappers
  import opened Sorting

  /** FolderTreeBuilder.IsDemoPath ignores case; LibraryService.BuildFolderTree
      tests the prefix case-sensitively. */
  predicate IsDemoPath(path: string, ignoreCase: bool)
  {
    if ignoreCase then StartsWithIgnoreCase(path, "demo://") else StartsWith(path, "demo://")
  }

  function NameKey(n: FolderNode): string
  {
    Upper(n.name)
  }

  function TitleKey(s: Song): string
  {
    Upper(s.title)
  }

  /** The configured folders that exist, in configured order. */
  function ExistingFolders(paths: seq<string>, existingDirs: set<string>): (r: seq<string>)
    ensures forall q :: q in r <==> q in paths && q in existingDirs
  {
    if paths == [] then []
    else
      var rest := ExistingFolders(paths[1..], existingDirs);
      assert paths == [paths[0]] + paths[1..];
      if paths[0] in existingDirs then [paths[0]] + rest else rest
  }

  /** One empty node per configured folder that exists, named after the
      folder's last path component. */
  function CreateRootNodes(paths: seq<string>, existingDirs: set<string>): (r: seq<FolderNode>)
    ensures PathsOf(r) == ExistingFolders(paths, existingDirs)
    ensures forall k :: 0 <= k < |r| ==> r[k].songs == [] && r[k].children == []
    ensures forall k :: 0 <= k < |r| ==> r[k].name == FileName(r[k].path)
  {
    var folders := ExistingFolders(paths, existingDirs);
    seq(|folders|, k requires 0 <= k < |folders| => FolderNode(FileName(folders[k]), folders[k], [], []))
  }

  /** Fresh root nodes hold no songs. */
  lemma {:induction false} SongsOfEmptyNodes(ns: seq<FolderNode>)
    requires forall k :: 0 <= k < |ns| ==> ns[k].songs == [] && ns[k].children == []
    ensures SongsOf(ns) == multiset{}
    decreases |ns|
  {
    if ns != [] {
      SongsOfEmptyNodes(ns[1..]);
    }
  }

  function PathsOf(roots: seq<FolderNode>): (r: seq<string>)
    ensures |r| == |roots|
    ensures forall k :: 0 <= k < |roots| ==> r[k] == roots[k].path
  {
    seq(|roots|, k requires 0 <= k < |roots| => roots[k].path)
  }

  /** Index of the first child whose name equals `segment` ignoring case, or -1. */
  function ChildIndex(children: seq<FolderNode>, segment: string): (i: int)
    ensures -1 <= i < |children|
    ensures i >= 0 ==> EqualsIgnoreCase(children[i].name, segment)
    ensures forall j :: 0 <= j < |children| && (i < 0 || j < i) ==> !EqualsIgnoreCase(children[j].name, segment)
  {
    if children == [] then -1
    else if EqualsIgnoreCase(children[0].name, segment) then 0
    else var k := ChildIndex(children[1..], segment); if k < 0 then -1 else k + 1
  }

  /** GetOrCreateChildNode: the parent (with the child appended when it was
      missing) and the child's index. */
  function GetOrCreateChild(parent: FolderNode, segment: string): (r: (FolderNode, nat))
    ensures r.1 < |r.0.children|
    ensures r.0.name == parent.name && r.0.path == parent.path && r.0.songs == parent.songs
    ensures ChildIndex(parent.children, segment) >= 0 ==> r.0 == parent
    ensures ChildIndex(parent.children, segment) < 0 ==>
              r.0.children == parent.children + [FolderNode(segment, Combine(parent.path, segment), [], [])]
  {
    var i := ChildIndex(parent.children, segment);
    if i >= 0 then (parent, i)
    else
      var child := FolderNode(segment, Combine(parent.path, segment), [], []);
      (parent.(children := parent.children + [child]), |parent.children|)
  }

  /** The node reached from `node` by following `segments`, each matched
      ignoring case. */
  function Find(node: FolderNode, segments: seq<string>): Option<FolderNode>
    decreases |segments|
  {
    if segments == [] then Some(node)
    else
      var i := ChildIndex(node.children, segments[0]);
      if i < 0 then None else Find(node.children[i], segments[1..])
  }

  /** Walks (creating as needed) the nodes named by `segments` below `node`
      and attaches `song` to the last one. */
  function AddSong(node: FolderNode, segments: seq<string>, song: Song): (r: FolderNode)
    ensures r.name == node.name && r.path == node.path
    decreases |segments|
  {
    if segments == [] then node.(songs := node.songs + [song])
    else
      var (p, i) := GetOrCreateChild(node, segments[0]);
      p.(children := p.children[i := AddSong(p.children[i], segments[1..], song)])
  }

  /** First root whose path is a case-insensitive string prefix of `dir`. */
  function RootFor(rootPaths: seq<string>, dir: string): (k: int)
    ensures -1 <= k < |rootPaths|
    ensures k >= 0 ==> StartsWithIgnoreCase(dir, rootPaths[k])
    ensures forall j :: 0 <= j < |rootPaths| && (k < 0 || j < k) ==> !StartsWithIgnoreCase(dir, rootPaths[j])
  {
    if rootPaths == [] then -1
    else if StartsWithIgnoreCase(dir, rootPaths[0]) then 0
    else var k := RootFor(rootPaths[1..], dir); if k < 0 then -1 else k + 1
  }

  /** Where ProcessSong puts a song: the root's index and the directory names
      below it; None when the song has no directory or no root matches. */
  function Target(song: Song, rootPaths: seq<string>): (t: Option<(nat, seq<string>)>)
    ensures t.Some? ==> t.value.0 < |rootPaths|
  {
    var dir := DirectoryName(song.filePath);
    if dir.None? || |dir.value| == 0 then None
    else
      var k := RootFor(rootPaths, dir.value);
      if k < 0 then None
      else Some((k, Split(dir.value[|rootPaths[k]|..], Sep)))
  }

  /** The song goes under the first root whose path prefixes its directory,
      at the node its remaining segments name; nothing happens without one. */
  function ProcessSong(song: Song, roots: seq<FolderNode>): (r: seq<FolderNode>)
    ensures PathsOf(r) == PathsOf(roots)
    ensures forall k :: 0 <= k < |r| ==> r[k].name == roots[k].name
    ensures Target(song, PathsOf(roots)).Some? ==>
              Find(r[Target(song, PathsOf(roots)).value.0], Target(song, PathsOf(roots)).value.1).Some?
              && song in Find(r[Target(song, PathsOf(roots)).value.0], Target(song, PathsOf(roots)).value.1).value.songs
    ensures forall k :: 0 <= k < |r| && (Target(song, PathsOf(roots)).None? || k != Target(song, PathsOf(roots)).value.0)
              ==> r[k] == roots[k]
  {
    match Target(song, PathsOf(roots))
    case None => roots
    case Some((k, segments)) =>
      AddSongThenFind(roots[k], segments, song);
      roots[k := AddSong(roots[k], segments, song)]
  }

  /** SortNode: children by name and songs by title, ignoring case, at every level. */
  function SortNode(n: FolderNode): (r: FolderNode)
    ensures r.name == n.name && r.path == n.path
    decreases n
  {
    var sortedChildren := seq(|n.children|, k requires 0 <= k < |n.children| => SortNode(n.children[k]));
    FolderNode(n.name, n.path, SortBy(sortedChildren, NameKey), SortBy(n.songs, TitleKey))
  }

  /** The songs of a forest, counted with multiplicity. */
  ghost function SongsOf(ns: seq<FolderNode>): multiset<Song>
    decreases ns
  {
    if ns == [] then multiset{}
    else multiset(ns[0].songs) + SongsOf(ns[0].children) + SongsOf(ns[1..])
  }

  /** No node has two children whose names are equal ignoring case. */
  ghost predicate NoTwins(children: seq<FolderNode>)
  {
    forall i, j :: 0 <= i < j < |children| ==> !EqualsIgnoreCase(children[i].name, children[j].name)
  }

  ghost predicate WellFormed(n: FolderNode)
    decreases n
  {
    NoTwins(n.children) && forall k :: 0 <= k < |n.children| ==> WellFormed(n.children[k])
  }

  ghost predicate Sorted(n: FolderNode)
    decreases n
  {
    SortedBy(n.children, NameKey) && SortedBy(n.songs, TitleKey)
    && forall k :: 0 <= k < |n.children| ==> Sorted(n.children[k])
  }

  /** The songs Build attaches: not demo songs, and with a matching root. */
  function Kept(songs: seq<Song>, rootPaths: seq<string>, ignoreCase: bool): (r: seq<Song>)
    ensures multiset(r) <= multiset(songs)
    ensures forall s :: s in r ==> !IsDemoPath(s.filePath, ignoreCase) && Target(s, rootPaths).Some?
  {
    if songs == [] then []
    else
      var last := songs[|songs| - 1];
      assert songs == songs[..|songs| - 1] + [last];
      Kept(songs[..|songs| - 1], rootPaths, ignoreCase)
      + (if !IsDemoPath(last.filePath, ignoreCase) && Target(last, rootPaths).Some? then [last] else [])
  }

  lemma {:induction false} SongsOfAppend(a: seq<FolderNode>, b: seq<FolderNode>)
    ensures SongsOf(a + b) == SongsOf(a) + SongsOf(b)
    decreases a
  {
    if a == [] {
      assert a + b == b;
    } else {
      var ab := a + b;
      assert ab[0] == a[0];
      assert ab[1..] == a[1..] + b;
      SongsOfAppend(a[1..], b);
      calc {
        SongsOf(ab);
        multiset(a[0].songs) + SongsOf(a[0].children) + SongsOf(a[1..] + b);
        multiset(a[0].songs) + SongsOf(a[0].children) + (SongsOf(a[1..]) + SongsOf(b));
      }
    }
  }

  lemma SongsOfSingle(n: FolderNode)
    ensures SongsOf([n]) == multiset(n.songs) + SongsOf(n.children)
  {
    assert [n][1..] == [];
  }

  lemma SongsOfUpdate(ns: seq<FolderNode>, i: nat, x: FolderNode)
    requires i < |ns|
    ensures SongsOf(ns[i := x]) + SongsOf([ns[i]]) == SongsOf(ns) + SongsOf([x])
  {
    assert ns == ns[..i] + [ns[i]] + ns[i + 1..];
    assert ns[i := x] == ns[..i] + [x] + ns[i + 1..];
    SongsOfAppend(ns[..i] + [ns[i]], ns[i + 1..]);
    SongsOfAppend(ns[..i], [ns[i]]);
    SongsOfAppend(ns[..i] + [x], ns[i + 1..]);
    SongsOfAppend(ns[..i], [x]);
  }

  /** Attaching a song adds exactly that song to the subtree. */
  lemma {:induction false} AddSongAddsOne(node: FolderNode, segments: seq<string>, song: Song)
    ensures SongsOf([AddSong(node, segments, song)]) == SongsOf([node]) + multiset{song}
    decreases |segments|
  {
    var r := AddSong(node, segments, song);
    SongsOfSingle(node);
    SongsOfSingle(r);
    if segments == [] {
      assert r.songs == node.songs + [song];
      assert multiset(r.songs) == multiset(node.songs) + multiset{song};
    } else {
      var pi := GetOrCreateChild(node, segments[0]);
      var p, i := pi.0, pi.1;
      var old_ := p.children[i];
      var c := AddSong(old_, segments[1..], song);
      assert r == p.(children := p.children[i := c]);
      AddSongAddsOne(old_, segments[1..], song);
      SongsOfUpdate(p.children, i, c);
      ChildrenGainOne(SongsOf(r.children), SongsOf(p.children), SongsOf([old_]), song);
      GetOrCreateChildKeepsSongs(node, segments[0]);
      assert r.songs == node.songs;
    }
  }

  lemma ChildrenGainOne(updated: multiset<Song>, before: multiset<Song>, child: multiset<Song>, song: Song)
    requires updated + child == before + (child + multiset{song})
    ensures updated == before + multiset{song}
  {
    forall x
      ensures updated[x] == (before + multiset{song})[x]
    {
      assert (updated + child)[x] == (before + (child + multiset{song}))[x];
    }
  }

  lemma GetOrCreateChildKeepsSongs(parent: FolderNode, segment: string)
    ensures SongsOf(GetOrCreateChild(parent, segment).0.children) == SongsOf(parent.children)
  {
    if ChildIndex(parent.children, segment) < 0 {
      var created := FolderNode(segment, Combine(parent.path, segment), [], []);
      SongsOfAppend(parent.children, [created]);
      SongsOfSingle(created);
    }
  }

  lemma ChildIndexKeepsName(cs: seq<FolderNode>, i: nat, x: FolderNode, segment: string)
    requires i < |cs| && ChildIndex(cs, segment) == i && x.name == cs[i].name
    ensures ChildIndex(cs[i := x], segment) == i
  {
    assert EqualsIgnoreCase(cs[i := x][i].name, segment);
    forall j | 0 <= j < i
      ensures cs[i := x][j] == cs[j]
    {
    }
  }

  /** GetOrCreateChild returns the index ChildIndex finds in the new parent. */
  lemma GetOrCreateChildFinds(parent: FolderNode, segment: string)
    ensures ChildIndex(GetOrCreateChild(parent, segment).0.children, segment) == GetOrCreateChild(parent, segment).1
  {
    var p := GetOrCreateChild(parent, segment).0;
    forall j | 0 <= j < |parent.children|
      ensures p.children[j] == parent.children[j]
    {
    }
    assert EqualsIgnoreCase(p.children[GetOrCreateChild(parent, segment).1].name, segment);
  }

  /** After AddSong, following the same segments reaches a node holding the song. */
  lemma {:induction false} AddSongThenFind(node: FolderNode, segments: seq<string>, song: Song)
    ensures Find(AddSong(node, segments, song), segments).Some?
    ensures song in Find(AddSong(node, segments, song), segments).value.songs
    decreases |segments|
  {
    if segments != [] {
      var pi := GetOrCreateChild(node, segments[0]);
      var p, i := pi.0, pi.1;
      var c := AddSong(p.children[i], segments[1..], song);
      GetOrCreateChildFinds(node, segments[0]);
      ChildIndexKeepsName(p.children, i, c, segments[0]);
      AddSongThenFind(p.children[i], segments[1..], song);
    }
  }

  lemma NoTwinsUpdate(cs: seq<FolderNode>, i: nat, x: FolderNode)
    requires i < |cs| && NoTwins(cs) && x.name == cs[i].name
    ensures NoTwins(cs[i := x])
  {
    var u := cs[i := x];
    assert forall k :: 0 <= k < |u| ==> u[k].name == cs[k].name;
  }

  /** Attaching a song never creates two sibling nodes with the same name. */
  lemma {:induction false} AddSongKeepsWellFormed(node: FolderNode, segments: seq<string>, song: Song)
    requires WellFormed(node)
    ensures WellFormed(AddSong(node, segments, song))
    decreases |segments|
  {
    if segments != [] {
      var (p, i) := GetOrCreateChild(node, segments[0]);
      var c := AddSong(p.children[i], segments[1..], song);
      assert WellFormed(p) by {
        if ChildIndex(node.children, segments[0]) < 0 {

          forall a, b | 0 <= a < b < |p.children|
            ensures !EqualsIgnoreCase(p.children[a].name, p.children[b].name)
          {
            if b == |node.children| {
              assert !EqualsIgnoreCase(node.children[a].name, segments[0]);
            } else {
              assert p.children[a] == node.children[a] && p.children[b] == node.children[b];
            }
          }
          forall k | 0 <= k < |p.children|
            ensures WellFormed(p.children[k])
          {
            if k < |node.children| {
              assert p.children[k] == node.children[k];
            }
          }
        }
      }
      AddSongKeepsWellFormed(p.children[i], segments[1..], song);
      NoTwinsUpdate(p.children, i, c);
      var r := p.(children := p.children[i := c]);
      forall k | 0 <= k < |r.children|
        ensures WellFormed(r.children[k])
      {
        if k != i {
          assert r.children[k] == p.children[k];
        }
      }
    }
  }

  /** ProcessSong adds the song to exactly one root when it has a target, and
      to none otherwise. */
  lemma ProcessSongCounts(song: Song, roots: seq<FolderNode>)
    ensures Target(song, PathsOf(roots)).Some? ==>
              SongsOf(ProcessSong(song, roots)) == SongsOf(roots) + multiset{song}
    ensures Target(song, PathsOf(roots)).None? ==> ProcessSong(song, roots) == roots
  {
    var t := Target(song, PathsOf(roots));
    if t.Some? {
      var k, segments := t.value.0, t.value.1;
      var x := AddSong(roots[k], segments, song);
      assert ProcessSong(song, roots) == roots[k := x];
      AddSongAddsOne(roots[k], segments, song);
      SongsOfUpdate(roots, k, x);
      ChildrenGainOne(SongsOf(roots[k := x]), SongsOf(roots), SongsOf([roots[k]]), song);
    }
  }

  lemma ProcessSongKeepsWellFormed(song: Song, roots: seq<FolderNode>)
    requires forall k :: 0 <= k < |roots| ==> WellFormed(roots[k])
    ensures forall k :: 0 <= k < |roots| ==> WellFormed(ProcessSong(song, roots)[k])
  {
    match Target(song, PathsOf(roots))
    case None =>
    case Some((k, segments)) =>
      AddSongKeepsWellFormed(roots[k], segments, song);
  }

  /** Forests whose members have the same songs have the same songs. */
  lemma {:induction false} SongsOfPointwise(a: seq<FolderNode>, b: seq<FolderNode>)
    requires |a| == |b|
    requires forall k :: 0 <= k < |a| ==> SongsOf([a[k]]) == SongsOf([b[k]])
    ensures SongsOf(a) == SongsOf(b)
    decreases |a|
  {
    if a != [] {
      SongsOfPointwise(a[1..], b[1..]);
      SongsOfSingle(a[0]);
      SongsOfSingle(b[0]);
    }
  }

  /** Multiset addition cancels on the right. */
  lemma Cancel<T>(u: multiset<T>, w: multiset<T>, c: multiset<T>)
    requires u + c == w + c
    ensures u == w
  {
    forall x
      ensures u[x] == w[x]
    {
      assert (u + c)[x] == (w + c)[x];
    }
  }

  /** Reordering a forest keeps its songs. */
  lemma {:induction false} SongsOfPermutation(a: seq<FolderNode>, b: seq<FolderNode>)
    requires multiset(a) == multiset(b)
    ensures SongsOf(a) == SongsOf(b)
    decreases |a|
  {
    if a != [] {
      var x := a[0];
      assert x in multiset(b);
      var i :| 0 <= i < |b| && b[i] == x;
      var l, r := b[..i], b[i + 1..];
      assert b == l + [x] + r;
      TakeOut(l, x, r);
      Uncons(a);
      Cancel(multiset(a[1..]), multiset(l + r), multiset{x});
      SongsOfPermutation(a[1..], l + r);
      calc {
        SongsOf(a);
        SongsOf(a[1..]) + SongsOf([x]);
        SongsOf(l + r) + SongsOf([x]);
        SongsOf(l + [x] + r);
      }
    }
  }

  /** The first tree of a forest and the rest. */
  lemma Uncons(a: seq<FolderNode>)
    requires a != []
    ensures multiset(a) == multiset(a[1..]) + multiset{a[0]}
    ensures SongsOf(a) == SongsOf(a[1..]) + SongsOf([a[0]])
  {
    assert a == [a[0]] + a[1..];
    SongsOfSingle(a[0]);
  }

  /** Taking one tree out of a forest takes out its songs. */
  lemma TakeOut(l: seq<FolderNode>, x: FolderNode, r: seq<FolderNode>)
    ensures multiset(l + [x] + r) == multiset(l + r) + multiset{x}
    ensures SongsOf(l + [x] + r) == SongsOf(l + r) + SongsOf([x])
  {
    SongsOfAppend(l + [x], r);
    SongsOfAppend(l, [x]);
    SongsOfAppend(l, r);
  }

  /** SortNode sorts every level and keeps the songs. */
  lemma {:induction false} SortNodeFacts(n: FolderNode)
    ensures Sorted(SortNode(n))
    ensures SongsOf([SortNode(n)]) == SongsOf([n])
    decreases n
  {
    var es := seq(|n.children|, k requires 0 <= k < |n.children| => SortNode(n.children[k]));
    forall k | 0 <= k < |n.children|
      ensures Sorted(es[k]) && SongsOf([es[k]]) == SongsOf([n.children[k]])
    {
      SortNodeFacts(n.children[k]);
    }
    var cs := SortBy(es, NameKey);
    SortByFacts(es, NameKey);
    SortByFacts(n.songs, TitleKey);
    forall k | 0 <= k < |cs|
      ensures Sorted(cs[k])
    {
      assert cs[k] in multiset(es);
      var j :| 0 <= j < |es| && es[j] == cs[k];
    }
    SongsOfPermutation(cs, es);
    SongsOfPointwise(es, n.children);
    SongsOfSingle(n);
    SongsOfSingle(SortNode(n));
  }

  /** Sorting keeps sibling names distinct. */
  lemma {:induction false} SortNodeKeepsWellFormed(n: FolderNode)
    requires WellFormed(n)
    ensures WellFormed(SortNode(n))
    decreases n
  {
    var es := seq(|n.children|, k requires 0 <= k < |n.children| => SortNode(n.children[k]));
    forall k | 0 <= k < |n.children|
      ensures WellFormed(es[k])
    {
      SortNodeKeepsWellFormed(n.children[k]);
    }
    assert DistinctBy(es, NameKey) by {
      forall i, j | 0 <= i < j < |es|
        ensures NameKey(es[i]) != NameKey(es[j])
      {
        assert !EqualsIgnoreCase(n.children[i].name, n.children[j].name);
      }
    }
    var cs := SortBy(es, NameKey);
    SortByKeepsDistinct(es, NameKey, NameKey);
    SortByFacts(es, NameKey);
    forall k | 0 <= k < |cs|
      ensures WellFormed(cs[k])
    {
      assert cs[k] in multiset(es);
      var j :| 0 <= j < |es| && es[j] == cs[k];
    }
    forall i, j | 0 <= i < j < |cs|
      ensures !EqualsIgnoreCase(cs[i].name, cs[j].name)
    {
      assert NameKey(cs[i]) != NameKey(cs[j]);
    }
  }

  /** SortNode on every root, then the roots ordered by name ignoring case. */
  function SortRoots(roots: seq<FolderNode>): (r: seq<FolderNode>)
  {
    SortBy(seq(|roots|, k requires 0 <= k < |roots| => SortNode(roots[k])), NameKey)
  }

  lemma SortRootsFacts(roots: seq<FolderNode>)
    requires forall k :: 0 <= k < |roots| ==> WellFormed(roots[k])
    ensures |SortRoots(roots)| == |roots|
    ensures SongsOf(SortRoots(roots)) == SongsOf(roots)
    ensures SortedBy(SortRoots(roots), NameKey)
    ensures forall k :: 0 <= k < |roots| ==> Sorted(SortRoots(roots)[k]) && WellFormed(SortRoots(roots)[k])
  {
    var sortedRoots := seq(|roots|, k requires 0 <= k < |roots| => SortNode(roots[k]));
    forall k | 0 <= k < |roots|
      ensures Sorted(sortedRoots[k]) && SongsOf([sortedRoots[k]]) == SongsOf([roots[k]])
      ensures WellFormed(sortedRoots[k])
    {
      SortNodeFacts(roots[k]);
      SortNodeKeepsWellFormed(roots[k]);
    }
    SongsOfPointwise(sortedRoots, roots);
    var r := SortBy(sortedRoots, NameKey);
    SortByFacts(sortedRoots, NameKey);
    SongsOfPermutation(r, sortedRoots);
    forall k | 0 <= k < |r|
      ensures Sorted(r[k]) && WellFormed(r[k])
    {
      assert r[k] in multiset(sortedRoots);
    }
  }

  /** Without roots no song is kept. */
  lemma {:induction false} KeptWithoutRoots(songs: seq<Song>, ignoreCase: bool)
    ensures Kept(songs, [], ignoreCase) == []
    decreases |songs|
  {
    if songs != [] {
      KeptWithoutRoots(songs[..|songs| - 1], ignoreCase);
    }
  }

  // Where songs sit.

  /** The song sits in the node reached from `n` by `segments`. */
  ghost predicate Holds(n: FolderNode, segments: seq<string>, s: Song)
  {
    Find(n, segments).Some? && s in Find(n, segments).value.songs
  }

  /** Every song of `kept` sits under the root its target names (by index),
      at the node its segments reach. */
  ghost predicate Placed(roots: seq<FolderNode>, rootPaths: seq<string>, kept: seq<Song>)
  {
    |roots| == |rootPaths|
    && forall s :: s in kept ==>
         Target(s, rootPaths).Some?
         && Holds(roots[Target(s, rootPaths).value.0], Target(s, rootPaths).value.1, s)
  }

  /** Every song of `kept` sits under a root whose path is the one its target
      names, at the node its segments reach. */
  ghost predicate Located(roots: seq<FolderNode>, rootPaths: seq<string>, kept: seq<Song>)
  {
    forall s :: s in kept ==>
      Target(s, rootPaths).Some?
      && exists j :: 0 <= j < |roots| && roots[j].path == rootPaths[Target(s, rootPaths).value.0]
                     && Holds(roots[j], Target(s, rootPaths).value.1, s)
  }

  /** A lookup that succeeds in `a` succeeds at the same index in `b` when `b`
      starts with children of the same names; with equal lengths a lookup
      that fails in `a` fails in `b` too. */
  lemma ChildIndexSameNames(a: seq<FolderNode>, b: seq<FolderNode>, segment: string)
    requires |a| <= |b|
    requires forall k :: 0 <= k < |a| ==> a[k].name == b[k].name
    requires ChildIndex(a, segment) >= 0 || |a| == |b|
    ensures ChildIndex(b, segment) == ChildIndex(a, segment)
  {
    assert forall k :: 0 <= k < |a| ==> (EqualsIgnoreCase(a[k].name, segment) == EqualsIgnoreCase(b[k].name, segment));
  }

  /** Attaching a song leaves every song already in the subtree where it was. */
  lemma {:induction false} AddSongKeepsHolds(node: FolderNode, segments: seq<string>, song: Song,
                                              at: seq<string>, s: Song)
    requires Holds(node, at, s)
    ensures Holds(AddSong(node, segments, song), at, s)
    decreases |at|
  {
    var r := AddSong(node, segments, song);
    if segments == [] {
      assert r.children == node.children && node.songs <= r.songs;
      if at == [] {
        assert s in r.songs;
      }
    } else {
      var pi := GetOrCreateChild(node, segments[0]);
      var p, i := pi.0, pi.1;
      var c := AddSong(p.children[i], segments[1..], song);
      assert r == p.(children := p.children[i := c]);
      if at != [] {
        var j := ChildIndex(node.children, at[0]);
        ChildIndexSameNames(node.children, p.children, at[0]);
        ChildIndexSameNames(p.children, r.children, at[0]);
        assert p.children[j] == node.children[j];
        if j == i {
          AddSongKeepsHolds(p.children[i], segments[1..], song, at[1..], s);
        } else {
          assert r.children[j] == node.children[j];
        }
      }
    }
  }

  /** Processing one song leaves every song already placed where it was. */
  lemma ProcessSongKeepsHolds(song: Song, roots: seq<FolderNode>, j: nat, at: seq<string>, s: Song)
    requires j < |roots| && Holds(roots[j], at, s)
    ensures Holds(ProcessSong(song, roots)[j], at, s)
  {
    match Target(song, PathsOf(roots))
    case None =>
    case Some((k, segments)) =>
      if k == j {
        AddSongKeepsHolds(roots[k], segments, song, at, s);
      }
  }

  /** The only child matching the segment is the one ChildIndex finds. */
  lemma ChildIndexOnly(cs: seq<FolderNode>, m: nat, segment: string)
    requires m < |cs| && EqualsIgnoreCase(cs[m].name, segment)
    requires forall j :: 0 <= j < |cs| && j != m ==> NameKey(cs[j]) != NameKey(cs[m])
    ensures ChildIndex(cs, segment) == m
  {
  }

  /** Sorted children of a node without twins have distinct names. */
  lemma SortedChildrenDistinct(n: FolderNode)
    requires NoTwins(n.children)
    ensures DistinctBy(SortNode(n).children, NameKey)
  {
    var es := seq(|n.children|, k requires 0 <= k < |n.children| => SortNode(n.children[k]));
    assert DistinctBy(es, NameKey) by {
      forall i, j | 0 <= i < j < |es|
        ensures NameKey(es[i]) != NameKey(es[j])
      {
        assert !EqualsIgnoreCase(n.children[i].name, n.children[j].name);
      }
    }
    SortByKeepsDistinct(es, NameKey, NameKey);
  }

  /** Sorting moves no song: what the segments reached before, they reach after. */
  lemma {:induction false} SortNodeKeepsHolds(n: FolderNode, at: seq<string>, s: Song)
    requires WellFormed(n) && Holds(n, at, s)
    ensures Holds(SortNode(n), at, s)
    decreases |at|
  {
    var es := seq(|n.children|, k requires 0 <= k < |n.children| => SortNode(n.children[k]));
    var cs := SortBy(es, NameKey);
    if at == [] {
      SortByPermutes(n.songs, TitleKey);
      assert s in multiset(n.songs);
      assert s in multiset(SortNode(n).songs);
    } else {
      var j := ChildIndex(n.children, at[0]);
      SortNodeKeepsHolds(n.children[j], at[1..], s);
      SortByPermutes(es, NameKey);
      assert es[j] in multiset(cs);
      var m :| 0 <= m < |cs| && cs[m] == es[j];
      SortedChildrenDistinct(n);
      ChildIndexOnly(cs, m, at[0]);
    }
  }

  /** Ordering the roots moves no song: each placed song is reached, by the
      same segments, under a root with the path its target names. */
  lemma SortRootsKeepsPlaced(roots: seq<FolderNode>, kept: seq<Song>)
    requires forall k :: 0 <= k < |roots| ==> WellFormed(roots[k])
    requires Placed(roots, PathsOf(roots), kept)
    ensures Located(SortRoots(roots), PathsOf(roots), kept)
  {
    var rootPaths := PathsOf(roots);
    var sortedRoots := seq(|roots|, k requires 0 <= k < |roots| => SortNode(roots[k]));
    var r := SortRoots(roots);
    SortByPermutes(sortedRoots, NameKey);
    forall s | s in kept
      ensures exists j :: 0 <= j < |r| && r[j].path == rootPaths[Target(s, rootPaths).value.0]
                          && Holds(r[j], Target(s, rootPaths).value.1, s)
    {
      var k, at := Target(s, rootPaths).value.0, Target(s, rootPaths).value.1;
      SortNodeKeepsHolds(roots[k], at, s);
      assert sortedRoots[k] in multiset(r);
      var j :| 0 <= j < |r| && r[j] == sortedRoots[k];
    }
  }

  lemma PathsOfAppend(a: seq<FolderNode>, b: seq<FolderNode>)
    ensures PathsOf(a + b) == PathsOf(a) + PathsOf(b)
  {
    assert |PathsOf(a + b)| == |PathsOf(a) + PathsOf(b)|;
  }

  /** Reordering a forest reorders its paths. */
  lemma {:induction false} PathsOfPermutation(a: seq<FolderNode>, b: seq<FolderNode>)
    requires multiset(a) == multiset(b)
    ensures multiset(PathsOf(a)) == multiset(PathsOf(b))
    decreases |a|
  {
    if a != [] {
      var x := a[0];
      assert x in multiset(b);
      var i :| 0 <= i < |b| && b[i] == x;
      var l, r := b[..i], b[i + 1..];
      assert b == l + [x] + r;
      TakeOut(l, x, r);
      Uncons(a);
      Cancel(multiset(a[1..]), multiset(l + r), multiset{x});
      PathsOfPermutation(a[1..], l + r);
      PathsOfAppend(l + [x], r);
      PathsOfAppend(l, [x]);
      PathsOfAppend(l, r);
      PathsOfAppend([x], a[1..]);
      assert a == [x] + a[1..];
    }
  }

  /** Ordering the roots keeps the roots: the same paths, each root still
      named after its path. */
  lemma SortRootsKeepsRoots(roots: seq<FolderNode>)
    requires forall k :: 0 <= k < |roots| ==> roots[k].name == FileName(roots[k].path)
    ensures multiset(PathsOf(SortRoots(roots))) == multiset(PathsOf(roots))
    ensures forall j :: 0 <= j < |SortRoots(roots)| ==> SortRoots(roots)[j].name == FileName(SortRoots(roots)[j].path)
  {
    var sortedRoots := seq(|roots|, k requires 0 <= k < |roots| => SortNode(roots[k]));
    var r := SortRoots(roots);
    assert PathsOf(sortedRoots) == PathsOf(roots);
    SortByPermutes(sortedRoots, NameKey);
    PathsOfPermutation(r, sortedRoots);
    forall j | 0 <= j < |r|
      ensures r[j].name == FileName(r[j].path)
    {
      assert r[j] in multiset(sortedRoots);
    }
  }

  // Build.

  /** The roots after Build's song loop has processed `songs`, demo songs skipped. */
  function Planted(songs: seq<Song>, roots: seq<FolderNode>, ignoreCase: bool): (r: seq<FolderNode>)
    ensures PathsOf(r) == PathsOf(roots)
    ensures forall k :: 0 <= k < |r| ==> r[k].name == roots[k].name
    decreases |songs|
  {
    if songs == [] then roots
    else
      var p := Planted(songs[..|songs| - 1], roots, ignoreCase);
      var last := songs[|songs| - 1];
      if IsDemoPath(last.filePath, ignoreCase) then p else ProcessSong(last, p)
  }

  lemma PlantedStep(songs: seq<Song>, i: nat, roots: seq<FolderNode>, ignoreCase: bool)
    requires i < |songs|
    ensures Planted(songs[..i + 1], roots, ignoreCase) ==
              if IsDemoPath(songs[i].filePath, ignoreCase) then Planted(songs[..i], roots, ignoreCase)
              else ProcessSong(songs[i], Planted(songs[..i], roots, ignoreCase))
  {
    assert songs[..i + 1][..i] == songs[..i];
  }

  /** The song loop attaches each kept song once and nothing else, and never
      creates same-named siblings. */
  lemma {:induction false} PlantedSongs(songs: seq<Song>, roots: seq<FolderNode>, ignoreCase: bool)
    requires forall k :: 0 <= k < |roots| ==> WellFormed(roots[k])
    ensures SongsOf(Planted(songs, roots, ignoreCase)) == SongsOf(roots) + multiset(Kept(songs, PathsOf(roots), ignoreCase))
    ensures forall k :: 0 <= k < |roots| ==> WellFormed(Planted(songs, roots, ignoreCase)[k])
    decreases |songs|
  {
    if songs != [] {
      var prefix, last := songs[..|songs| - 1], songs[|songs| - 1];
      var rootPaths := PathsOf(roots);
      PlantedSongs(prefix, roots, ignoreCase);
      var p := Planted(prefix, roots, ignoreCase);
      var kept := Kept(prefix, rootPaths, ignoreCase);
      if IsDemoPath(last.filePath, ignoreCase) {
        assert Kept(songs, rootPaths, ignoreCase) == kept;
      } else {
        assert Planted(songs, roots, ignoreCase) == ProcessSong(last, p);
        ProcessSongCounts(last, p);
        ProcessSongKeepsWellFormed(last, p);
        if Target(last, rootPaths).Some? {
          assert Kept(songs, rootPaths, ignoreCase) == kept + [last];
        } else {
          assert Kept(songs, rootPaths, ignoreCase) == kept;
        }
      }
    }
  }

  /** The song loop leaves every kept song under the first root whose path
      prefixes its directory, at the node its remaining segments reach. */
  lemma {:induction false} PlantedPlaces(songs: seq<Song>, roots: seq<FolderNode>, ignoreCase: bool)
    ensures Placed(Planted(songs, roots, ignoreCase), PathsOf(roots), Kept(songs, PathsOf(roots), ignoreCase))
    decreases |songs|
  {
    if songs != [] {
      var prefix, last := songs[..|songs| - 1], songs[|songs| - 1];
      var rootPaths := PathsOf(roots);
      PlantedPlaces(prefix, roots, ignoreCase);
      var p := Planted(prefix, roots, ignoreCase);
      if !IsDemoPath(last.filePath, ignoreCase) {
        var r := ProcessSong(last, p);
        assert Planted(songs, roots, ignoreCase) == r;
        forall s | s in Kept(prefix, rootPaths, ignoreCase)
          ensures Holds(r[Target(s, rootPaths).value.0], Target(s, rootPaths).value.1, s)
        {
          ProcessSongKeepsHolds(last, p, Target(s, rootPaths).value.0, Target(s, rootPaths).value.1, s);
        }
      }
    }
  }

  /** What Build returns: nothing when no configured folder exists; otherwise
      the roots after the song loop, every level sorted, ordered by name. */
  function BuildTree(songs: seq<Song>, musicFolderPaths: seq<string>, existingDirs: set<string>, ignoreCase: bool)
    : seq<FolderNode>
  {
    var roots := CreateRootNodes(musicFolderPaths, existingDirs);
    if roots == [] then [] else SortRoots(Planted(songs, roots, ignoreCase))
  }

  /** The folder view: one root per existing configured folder, named after
      it; every kept song, and nothing else, under the first root whose path
      prefixes its directory, at the node its remaining segments name; every
      level sorted and the roots ordered by name. */
  lemma BuildTreeFacts(songs: seq<Song>, musicFolderPaths: seq<string>, existingDirs: set<string>, ignoreCase: bool)
    ensures ExistingFolders(musicFolderPaths, existingDirs) == [] ==>
              BuildTree(songs, musicFolderPaths, existingDirs, ignoreCase) == []
    ensures multiset(PathsOf(BuildTree(songs, musicFolderPaths, existingDirs, ignoreCase)))
              == multiset(ExistingFolders(musicFolderPaths, existingDirs))
    ensures forall j :: 0 <= j < |BuildTree(songs, musicFolderPaths, existingDirs, ignoreCase)| ==>
              var root := BuildTree(songs, musicFolderPaths, existingDirs, ignoreCase)[j];
              root.name == FileName(root.path) && Sorted(root) && WellFormed(root)
    ensures SongsOf(BuildTree(songs, musicFolderPaths, existingDirs, ignoreCase))
              == multiset(Kept(songs, ExistingFolders(musicFolderPaths, existingDirs), ignoreCase))
    ensures Located(BuildTree(songs, musicFolderPaths, existingDirs, ignoreCase),
                    ExistingFolders(musicFolderPaths, existingDirs),
                    Kept(songs, ExistingFolders(musicFolderPaths, existingDirs), ignoreCase))
    ensures SortedBy(BuildTree(songs, musicFolderPaths, existingDirs, ignoreCase), NameKey)
  {
    var roots := CreateRootNodes(musicFolderPaths, existingDirs);
    var rootPaths := ExistingFolders(musicFolderPaths, existingDirs);
    assert PathsOf(roots) == rootPaths;
    if roots == [] {
      KeptWithoutRoots(songs, ignoreCase);
    } else {
      SongsOfEmptyNodes(roots);
      assert forall k :: 0 <= k < |roots| ==> WellFormed(roots[k]);
      var p := Planted(songs, roots, ignoreCase);
      PlantedSongs(songs, roots, ignoreCase);
      PlantedPlaces(songs, roots, ignoreCase);
      SortRootsFacts(p);
      SortRootsKeepsPlaced(p, Kept(songs, rootPaths, ignoreCase));
      SortRootsKeepsRoots(p);
    }
  }

  /** FolderTreeBuilder.Build (ignoreCase) and LibraryService.BuildFolderTree
      (case-sensitive demo test): the song loop over the fresh roots, then the
      sorting. */
  method Build(songs: seq<Song>, musicFolderPaths: seq<string>, existingDirs: set<string>, ignoreCase: bool)
    returns (r: seq<FolderNode>)
    ensures r == BuildTree(songs, musicFolderPaths, existingDirs, ignoreCase)
  {
    var roots := CreateRootNodes(musicFolderPaths, existingDirs);
    if |roots| == 0 {
      return roots;
    }
    ghost var created := roots;
    var i := 0;
    while i < |songs|
      invariant 0 <= i <= |songs|
      invariant roots == Planted(songs[..i], created, ignoreCase)
    {
      PlantedStep(songs, i, created, ignoreCase);
      var song := songs[i];
      if !IsDemoPath(song.filePath, ignoreCase) {
        roots := ProcessSong(song, roots);
      }
      i := i + 1;
    }
    assert songs[..i] == songs;
    r := SortRoots(roots);
  }
}
