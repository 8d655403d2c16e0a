/** PlaylistSyncOrchestrator: reconciles the file-backed playlists found by a
    scan with the ones the library already holds. Playlists are matched by
    FilePath, ignoring case; a matched playlist keeps its object and takes
    the name and song list of the found one. */
module PlaylistSync {
  import opened Wrappers
  import opened Text
  import opened Models

  /** A List<Playlist>: a mutable list whose identity the caller may keep. */
  class PlaylistList {
    var items: seq<Playlist>

    constructor (items: seq<Playlist>)
      ensures this.items == items
    {
      this.items := items;
    }
  }

  datatype SyncMode = Full | Incremental

  /** No two file-backed playlists share a FilePath, ignoring case. */
  ghost predicate NoKeyClash(ps: seq<Playlist>)
  {
    forall i, j :: 0 <= i < j < |ps| && ps[i].HasFilePath() && ps[j].HasFilePath() ==> ps[i].Key() != ps[j].Key()
  }

  /** `ps.Where(p => !string.IsNullOrEmpty(p.FilePath)).ToDictionary(p =>
      p.FilePath, OrdinalIgnoreCase)`: fails with the path of the first
      playlist whose key is already taken. */
  function KeyMap(ps: seq<Playlist>): (r: Outcome<map<string, Playlist>>)
    ensures r.Ok? <==> NoKeyClash(ps)
    ensures r.Ok? ==> forall p :: p in ps && p.HasFilePath() ==> p.Key() in r.value && r.value[p.Key()] == p
    ensures r.Ok? ==> forall k :: k in r.value ==> r.value[k] in ps && r.value[k].HasFilePath() && r.value[k].Key() == k
    ensures r.Fail? ==> exists p :: p in ps && p.HasFilePath() && r.error == DuplicateKey(p.filePath.value)
    decreases |ps|
  {
    if ps == [] then Ok(map[])
    else
      var prefix := ps[..|ps| - 1];
      var p := ps[|ps| - 1];
      assert forall i :: 0 <= i < |prefix| ==> prefix[i] == ps[i];
      assert ps == prefix + [p];
      match KeyMap(prefix)
      case Fail(e) => Fail(e)
      case Ok(m) =>
        if !p.HasFilePath() then Ok(m)
        else if p.Key() in m then
          var q :| q in prefix && q.HasFilePath() && q.Key() == p.Key();
          var i :| 0 <= i < |prefix| && prefix[i] == q;
          assert ps[i].Key() == ps[|ps| - 1].Key();
          Fail(DuplicateKey(p.filePath.value))
        else Ok(m[p.Key() := p])
  }

  /** The playlist a found entry stands for: the existing one with its key,
      else the found one itself. */
  function Pick(m: map<string, Playlist>, f: Playlist): Playlist
  {
    if f.Key() in m then m[f.Key()] else f
  }

  /** The result of a full sync: one entry per file-backed found playlist,
      in found order. */
  function Selected(m: map<string, Playlist>, found: seq<Playlist>): (r: seq<Playlist>)
    ensures |r| <= |found|
    decreases |found|
  {
    if found == [] then []
    else
      var f := found[|found| - 1];
      Selected(m, found[..|found| - 1]) + (if f.HasFilePath() then [Pick(m, f)] else [])
  }

  /** What an incremental sync appends: the file-backed found playlists with
      no existing counterpart, in found order. */
  function Unmatched(m: map<string, Playlist>, found: seq<Playlist>): (r: seq<Playlist>)
    ensures |r| <= |found|
    decreases |found|
  {
    if found == [] then []
    else
      var f := found[|found| - 1];
      Unmatched(m, found[..|found| - 1]) + (if f.HasFilePath() && f.Key() !in m then [f] else [])
  }

  /** The last file-backed found playlist with key `k`: the one whose name
      and songs a matched playlist ends up with. */
  function LastMatch(k: string, found: seq<Playlist>): (r: Option<Playlist>)
    ensures r.Some? ==> r.value in found && r.value.HasFilePath() && r.value.Key() == k
    ensures r.None? ==> forall f :: f in found && f.HasFilePath() ==> f.Key() != k
    decreases |found|
  {
    if found == [] then None
    else
      var f := found[|found| - 1];
      var prefix := found[..|found| - 1];
      assert found == prefix + [f];
      if f.HasFilePath() && f.Key() == k then Some(f) else LastMatch(k, prefix)
  }

  /** UpdatePlaylist: copies the name and the song list. */
  method UpdatePlaylist(target: Playlist, source: Playlist)
    modifies target
    ensures target.name == old(source.name) && target.songFilePaths == old(source.songFilePaths)
  {
    target.name := source.name;
    target.songFilePaths := source.songFilePaths;
  }

  /** How an existing playlist looks after a sync over `found`, given the
      name and songs it had before: those of its last match, else the old
      ones. */
  ghost predicate RefreshedFrom(e: Playlist, name0: string, songs0: seq<string>, found: seq<Playlist>)
    reads e, found
  {
    var lm := LastMatch(e.Key(), found);
    if e.HasFilePath() && lm.Some? then e.name == lm.value.name && e.songFilePaths == lm.value.songFilePaths
    else e.name == name0 && e.songFilePaths == songs0
  }

  /** Every playlist of `es` is refreshed over `found` from the snapshot. */
  ghost predicate AllRefreshedFrom(es: seq<Playlist>, name0: map<Playlist, string>, songs0: map<Playlist, seq<string>>, found: seq<Playlist>)
    reads es, found
  {
    forall e :: e in es ==> e in name0 && e in songs0 && RefreshedFrom(e, name0[e], songs0[e], found)
  }

  /** The same, against the state at the start of the sync. */
  twostate predicate Refreshed(e: Playlist, found: seq<Playlist>)
    reads e, found
  {
    RefreshedFrom(e, old(e.name), old(e.songFilePaths), found)
  }

  lemma SelectedAppend(m: map<string, Playlist>, found: seq<Playlist>, f: Playlist)
    ensures f.HasFilePath() ==> Selected(m, found + [f]) == Selected(m, found) + [Pick(m, f)]
    ensures !f.HasFilePath() ==> Selected(m, found + [f]) == Selected(m, found)
  {
    assert (found + [f])[..|found|] == found;
  }

  lemma UnmatchedAppend(m: map<string, Playlist>, found: seq<Playlist>, f: Playlist)
    ensures f.HasFilePath() && f.Key() !in m ==> Unmatched(m, found + [f]) == Unmatched(m, found) + [f]
    ensures !(f.HasFilePath() && f.Key() !in m) ==> Unmatched(m, found + [f]) == Unmatched(m, found)
  {
    assert (found + [f])[..|found|] == found;
  }

  lemma LastMatchAppend(k: string, found: seq<Playlist>, f: Playlist)
    ensures LastMatch(k, found + [f]) == if f.HasFilePath() && f.Key() == k then Some(f) else LastMatch(k, found)
  {
    assert (found + [f])[..|found|] == found;
  }

  /** One step of either sync over a found playlist: when it is file-backed
      and an existing playlist has its key, that playlist takes its name and
      songs. Returns the playlist the found entry stands for. */
  method MatchFound(existing: seq<Playlist>, m: map<string, Playlist>, f: Playlist,
                    ghost prefix: seq<Playlist>, ghost name0: map<Playlist, string>, ghost songs0: map<Playlist, seq<string>>)
    returns (t: Playlist)
    requires KeyMap(existing) == Ok(m)
    requires f !in existing && forall g :: g in prefix ==> g !in existing
    requires AllRefreshedFrom(existing, name0, songs0, prefix)
    modifies existing
    ensures t == Pick(m, f)
    ensures AllRefreshedFrom(existing, name0, songs0, prefix + [f])
  {
    t := f;
    if f.HasFilePath() && f.Key() in m {
      t := m[f.Key()];
      UpdatePlaylist(t, f);
    }
    forall e | e in existing
      ensures RefreshedFrom(e, name0[e], songs0[e], prefix + [f])
    {
      LastMatchAppend(e.Key(), prefix, f);
      if e.HasFilePath() && f.HasFilePath() && f.Key() == e.Key() {
        assert e == t;
      }
    }
  }

  /** One pass of the PerformFullSync loop: the i-th found playlist is
      matched, and kept when it is file-backed. */
  method FullSyncStep(existing: seq<Playlist>, m: map<string, Playlist>, found: seq<Playlist>, i: nat,
                      newList: seq<Playlist>, ghost name0: map<Playlist, string>,
                      ghost songs0: map<Playlist, seq<string>>)
    returns (next: seq<Playlist>)
    requires i < |found| && KeyMap(existing) == Ok(m)
    requires forall f :: f in found ==> f !in existing
    requires newList == Selected(m, found[..i])
    requires AllRefreshedFrom(existing, name0, songs0, found[..i])
    modifies existing
    ensures next == Selected(m, found[..i + 1])
    ensures AllRefreshedFrom(existing, name0, songs0, found[..i + 1])
  {
    var f := found[i];
    ghost var done := found[..i];
    assert found[..i + 1] == done + [f];
    var t := MatchFound(existing, m, f, done, name0, songs0);
    SelectedAppend(m, done, f);
    next := newList;
    if f.HasFilePath() {
      next := next + [t];
    }
  }

  /** PerformFullSync. The found playlists are new objects, distinct from the
      existing ones. */
  method PerformFullSync(existing: seq<Playlist>, found: seq<Playlist>) returns (r: Outcome<PlaylistList>)
    requires forall f :: f in found ==> f !in existing
    modifies existing
    ensures KeyMap(existing).Fail? ==>
      r == Fail(KeyMap(existing).error) && forall e :: e in existing ==> unchanged(e)
    ensures KeyMap(existing).Ok? ==>
      && r.Ok? && fresh(r.value)
      && r.value.items == Selected(KeyMap(existing).value, found)
      && forall e :: e in existing ==> Refreshed(e, found)
  {
    var km := KeyMap(existing);
    if km.Fail? {
      return Fail(km.error);
    }
    var m := km.value;
    ghost var name0 := map e | e in existing :: e.name;
    ghost var songs0 := map e | e in existing :: e.songFilePaths;
    var newList := [];
    var i := 0;
    assert found[..0] == [];
    while i < |found|
      invariant 0 <= i <= |found|
      invariant newList == Selected(m, found[..i])
      invariant AllRefreshedFrom(existing, name0, songs0, found[..i])
    {
      newList := FullSyncStep(existing, m, found, i, newList, name0, songs0);
      i := i + 1;
    }
    assert found[..i] == found;
    var list := new PlaylistList(newList);
    r := Ok(list);
  }

  /** One step of the incremental sync: a matched found playlist refreshes
      its existing counterpart, an unmatched file-backed one is appended. */
  method IncrementalStep(existing: PlaylistList, items: seq<Playlist>, m: map<string, Playlist>, f: Playlist,
                         ghost prefix: seq<Playlist>, ghost added: seq<Playlist>,
                         ghost name0: map<Playlist, string>, ghost songs0: map<Playlist, seq<string>>)
    requires KeyMap(items) == Ok(m)
    requires f !in items && forall g :: g in prefix ==> g !in items
    requires AllRefreshedFrom(items, name0, songs0, prefix)
    requires existing.items == items + added
    modifies existing, items
    ensures f.HasFilePath() && f.Key() !in m ==> existing.items == items + (added + [f])
    ensures !(f.HasFilePath() && f.Key() !in m) ==> existing.items == items + added
    ensures AllRefreshedFrom(items, name0, songs0, prefix + [f])
  {
    if f.HasFilePath() && f.Key() !in m {
      existing.items := existing.items + [f];
      assert existing.items == items + (added + [f]);
    }
    var _ := MatchFound(items, m, f, prefix, name0, songs0);
  }

  /** PerformIncrementalSync: appends to `existing` in place and returns it. */
  method PerformIncrementalSync(existing: PlaylistList, found: seq<Playlist>) returns (r: Outcome<PlaylistList>)
    requires forall f :: f in found ==> f !in existing.items
    modifies existing, existing.items
    ensures KeyMap(old(existing.items)).Fail? ==>
      && r == Fail(KeyMap(old(existing.items)).error)
      && existing.items == old(existing.items)
      && forall e :: e in existing.items ==> unchanged(e)
    ensures KeyMap(old(existing.items)).Ok? ==>
      && r == Ok(existing)
      && existing.items == old(existing.items) + Unmatched(KeyMap(old(existing.items)).value, found)
      && forall e :: e in old(existing.items) ==> Refreshed(e, found)
  {
    var items := existing.items;
    var km := KeyMap(items);
    if km.Fail? {
      return Fail(km.error);
    }
    var m := km.value;
    ghost var name0 := map e | e in items :: e.name;
    ghost var songs0 := map e | e in items :: e.songFilePaths;
    ghost var done := [];
    ghost var added := [];
    var i := 0;
    while i < |found|
      invariant 0 <= i <= |found| && done == found[..i]
      invariant existing.items == items + added && added == Unmatched(m, done)
      invariant AllRefreshedFrom(items, name0, songs0, done)
    {
      var f := found[i];
      assert found[..i + 1] == done + [f];
      IncrementalStep(existing, items, m, f, done, added, name0, songs0);
      UnmatchedAppend(m, done, f);
      if f.HasFilePath() && f.Key() !in m {
        added := added + [f];
      }
      done := done + [f];
      i := i + 1;
    }
    assert done == found;
    r := Ok(existing);
  }

  /** Sync: dispatches on the mode. */
  method Sync(existing: PlaylistList, found: seq<Playlist>, mode: SyncMode) returns (r: Outcome<PlaylistList>)
    requires forall f :: f in found ==> f !in existing.items
    modifies existing, existing.items
    ensures mode == Full ==> existing.items == old(existing.items)
    ensures mode == Full && KeyMap(old(existing.items)).Ok? ==>
      r.Ok? && r.value.items == Selected(KeyMap(old(existing.items)).value, found)
    ensures mode == Incremental && KeyMap(old(existing.items)).Ok? ==>
      r == Ok(existing) && existing.items == old(existing.items) + Unmatched(KeyMap(old(existing.items)).value, found)
    ensures KeyMap(old(existing.items)).Fail? ==> r == Fail(KeyMap(old(existing.items)).error)
    ensures KeyMap(old(existing.items)).Ok? ==> forall e :: e in old(existing.items) ==> Refreshed(e, found)
    ensures KeyMap(old(existing.items)).Fail? ==>
      existing.items == old(existing.items) && forall e :: e in old(existing.items) ==> unchanged(e)
  {
    if mode == Full {
      r := PerformFullSync(existing.items, found);
    } else {
      r := PerformIncrementalSync(existing, found);
    }
  }

  // What the two result lists hold.

  /** A full sync's result has one entry per file-backed found playlist, in
      found order: the existing playlist with that key, else the found one. */
  lemma {:induction false} SelectedEntries(m: map<string, Playlist>, found: seq<Playlist>)
    ensures |Selected(m, found)| == |FileBacked(found)|
    ensures forall k :: 0 <= k < |Selected(m, found)| ==> Selected(m, found)[k] == Pick(m, FileBacked(found)[k])
    decreases |found|
  {
    if found != [] {
      SelectedEntries(m, found[..|found| - 1]);
    }
  }

  /** The file-backed playlists of `ps`, in order. */
  function FileBacked(ps: seq<Playlist>): (r: seq<Playlist>)
    ensures forall p :: p in r ==> p in ps && p.HasFilePath()
    ensures forall p :: p in ps && p.HasFilePath() ==> p in r
    decreases |ps|
  {
    if ps == [] then []
    else
      var prefix := ps[..|ps| - 1];
      var p := ps[|ps| - 1];
      assert ps == prefix + [p];
      FileBacked(prefix) + (if p.HasFilePath() then [p] else [])
  }

  /** An existing playlist survives a full sync exactly when a file-backed
      found playlist has its key; the others are dropped. */
  lemma {:induction false} SelectedKeepsExactlyMatched(existing: seq<Playlist>, found: seq<Playlist>, e: Playlist)
    requires forall f :: f in found ==> f !in existing
    requires KeyMap(existing).Ok?
    requires e in existing
    ensures e in Selected(KeyMap(existing).value, found) <==>
      e.HasFilePath() && exists f :: f in found && f.HasFilePath() && f.Key() == e.Key()
    decreases |found|
  {
    if found != [] {
      var prefix := found[..|found| - 1];
      var f := found[|found| - 1];
      assert found == prefix + [f];
      SelectedKeepsExactlyMatched(existing, prefix, e);
      if e.HasFilePath() && f.HasFilePath() && f.Key() == e.Key() {
        assert Pick(KeyMap(existing).value, f) == e;
      }
    }
  }

  /** An incremental sync appends exactly the file-backed found playlists
      whose key no existing playlist has. */
  lemma {:induction false} UnmatchedExactly(m: map<string, Playlist>, found: seq<Playlist>, f: Playlist)
    ensures f in Unmatched(m, found) <==> f in found && f.HasFilePath() && f.Key() !in m
    decreases |found|
  {
    if found != [] {
      var prefix := found[..|found| - 1];
      assert found == prefix + [found[|found| - 1]];
      UnmatchedExactly(m, prefix, f);
    }
  }

  /** Both syncs leave only file-backed playlists in the list. */
  lemma {:induction false} SelectedFileBacked(existing: seq<Playlist>, found: seq<Playlist>)
    requires KeyMap(existing).Ok?
    ensures forall p :: p in Selected(KeyMap(existing).value, found) ==> p.HasFilePath()
    decreases |found|
  {
    if found != [] {
      SelectedFileBacked(existing, found[..|found| - 1]);
    }
  }
}
