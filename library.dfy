/** LibraryService: the path-keyed song map, the file watcher's events on
    it, full and single-folder rescans, the file-backed playlist list and
    the rebuild of the derived views (sorted songs, albums, artists, folder
    tree). */
module Library {
  import opened Wrappers
  import opened Text
  import opened Models
  import opened Sorting
  import Aggregation
  import FolderTree
  import PlaylistSync
  import Search

  /** `key.StartsWith("demo://")`: demo songs are never pruned. */
  predicate IsDemoKey(key: string)
  {
    FolderTree.IsDemoPath(key, false)
  }

  // The song map as a value: what each operation does to it.

  /** `_songsByPath[song.FilePath] = song` for each song in turn: a later
      song with the same path overwrites an earlier one. */
  function Upsert(m: map<string, Song>, songs: seq<Song>): (r: map<string, Song>)
    ensures r.Keys == m.Keys + set s | s in songs :: s.filePath
    decreases |songs|
  {
    if songs == [] then m
    else
      var prefix := songs[..|songs| - 1];
      var last := songs[|songs| - 1];
      assert songs == prefix + [last];
      Upsert(m, prefix)[last.filePath := last]
  }

  /** The last song of `songs` with this path. */
  function LastByPath(songs: seq<Song>, path: string): (r: Option<Song>)
    ensures r.Some? ==> r.value in songs && r.value.filePath == path
    ensures r.None? ==> forall s :: s in songs ==> s.filePath != path
    decreases |songs|
  {
    if songs == [] then None
    else
      var prefix := songs[..|songs| - 1];
      var last := songs[|songs| - 1];
      assert songs == prefix + [last];
      if last.filePath == path then Some(last) else LastByPath(prefix, path)
  }

  /** After the upserts a path holds the last song scanned with it, and an
      untouched path keeps its old song. */
  lemma {:induction false} UpsertValue(m: map<string, Song>, songs: seq<Song>, k: string)
    ensures LastByPath(songs, k).Some? ==> k in Upsert(m, songs) && Upsert(m, songs)[k] == LastByPath(songs, k).value
    ensures LastByPath(songs, k).None? ==> (k in Upsert(m, songs) <==> k in m)
    ensures LastByPath(songs, k).None? && k in m ==> Upsert(m, songs)[k] == m[k]
    decreases |songs|
  {
    if songs != [] {
      UpsertValue(m, songs[..|songs| - 1], k);
    }
  }

  /** The found-path set: the scanned paths, compared ignoring case. */
  function FoundKeys(songs: seq<Song>): set<string>
  {
    set s | s in songs :: Upper(s.filePath)
  }

  /** The pruning pass of a full rescan: a key stays when it is a demo key
      or was found, ignoring case. */
  function Pruned(m: map<string, Song>, found: set<string>): (r: map<string, Song>)
    ensures forall k :: k in r ==> k in m && r[k] == m[k]
    ensures forall k :: k in m && (IsDemoKey(k) || Upper(k) in found) ==> k in r
    ensures forall k :: k in r ==> IsDemoKey(k) || Upper(k) in found
  {
    map k | k in m && (IsDemoKey(k) || Upper(k) in found) :: m[k]
  }

  /** The map a full rescan leaves. */
  function Rescanned(m: map<string, Song>, scanned: seq<Song>): (r: map<string, Song>)
    ensures forall s :: s in scanned ==> s.filePath in r
    ensures forall k :: k in m && IsDemoKey(k) ==> k in r
    ensures forall k :: k in r ==> IsDemoKey(k) || exists s :: s in scanned && Upper(s.filePath) == Upper(k)
  {
    var u := Upsert(m, scanned);
    assert forall s :: s in scanned ==> Upper(s.filePath) in FoundKeys(scanned);
    Pruned(u, FoundKeys(scanned))
  }

  /** Every scanned song is in the rescanned map under its own path; when a
      path was scanned twice, the later song wins. */
  lemma RescannedHoldsScanned(m: map<string, Song>, scanned: seq<Song>, s: Song)
    requires s in scanned
    ensures Rescanned(m, scanned)[s.filePath] == LastByPath(scanned, s.filePath).value
  {
    UpsertValue(m, scanned, s.filePath);
  }

  /** OnFileAdded: a known path is left alone; otherwise the song the tag
      reader made (if any) is added under the event's path. */
  function FileAdded(m: map<string, Song>, path: string, created: Option<Song>): (r: map<string, Song>)
    ensures path in m ==> r == m
    ensures path !in m && created.None? ==> r == m
    ensures path !in m && created.Some? ==> path in r && r[path] == created.value
    ensures forall k :: k != path ==> (k in r <==> k in m) && (k in r ==> r[k] == m[k])
  {
    if path in m then m
    else if created.Some? then m[path := created.value]
    else m
  }

  /** OnFileRemoved: only that key goes. */
  function FileRemoved(m: map<string, Song>, path: string): (r: map<string, Song>)
    ensures path !in r
    ensures forall k :: k != path ==> (k in r <==> k in m) && (k in r ==> r[k] == m[k])
  {
    m - {path}
  }

  /** OnFileRenamed: a known old path moves its song (with the new path) to
      the new key, unless that key is already taken, in which case the song
      is dropped; an unknown old path is handled as an added file. */
  function FileRenamed(m: map<string, Song>, oldPath: string, newPath: string, created: Option<Song>): (r: map<string, Song>)
    ensures oldPath in m && oldPath != newPath ==> oldPath !in r
    ensures oldPath in m && (newPath !in m || newPath == oldPath) ==>
      newPath in r && r[newPath] == m[oldPath].(filePath := newPath)
    ensures oldPath in m && newPath in m && newPath != oldPath ==> newPath in r && r[newPath] == m[newPath]
    ensures oldPath !in m ==> r == FileAdded(m, newPath, created)
    ensures forall k :: k != oldPath && k != newPath ==> (k in r <==> k in m) && (k in r ==> r[k] == m[k])
  {
    if oldPath in m then
      var song := m[oldPath].(filePath := newPath);
      var rest := m - {oldPath};
      if newPath in rest then rest else rest[newPath := song]
    else FileAdded(m, newPath, created)
  }

  /** The new Title, Artist and Album of an edited song. */
  function WithMetadata(s: Song, md: SongMetadata): (r: Song)
    ensures r.title == md.title && r.artist == md.artist && r.album == md.album
    ensures r.filePath == s.filePath && r.duration == s.duration && r.hasArt == s.hasArt
  {
    s.(title := md.title, artist := md.artist, album := md.album)
  }

  /** `keys` lists every key of `m` exactly once. */
  ghost predicate Enumerates(keys: seq<string>, m: map<string, Song>)
  {
    && (forall i, j :: 0 <= i < j < |keys| ==> keys[i] != keys[j])
    && (forall k :: k in keys ==> k in m)
    && (forall k :: k in m ==> k in keys)
  }

  /** An enumeration has one entry per key. */
  lemma EnumerationSize(keys: seq<string>, m: map<string, Song>)
    requires Enumerates(keys, m)
    ensures |keys| == |m|
  {
    Aggregation.DistinctCard(keys);
    assert (set k | k in keys) == m.Keys;
  }

  /** `_songsByPath.Values.ToList()`: the values in the dictionary's own
      (unspecified) key order, each key visited once. */
  method EnumerateValues(m: map<string, Song>) returns (songs: seq<Song>, ghost order: seq<string>)
    ensures Enumerates(order, m)
    ensures |songs| == |order| == |m|
    ensures forall i :: 0 <= i < |songs| ==> songs[i] == m[order[i]]
  {
    var keys := m.Keys;
    songs := [];
    order := [];
    while keys != {}
      invariant keys <= m.Keys
      invariant forall k :: k in m ==> (k in keys <==> k !in order)
      invariant forall i, j :: 0 <= i < j < |order| ==> order[i] != order[j]
      invariant forall k :: k in order ==> k in m
      invariant |songs| == |order|
      invariant forall i :: 0 <= i < |songs| ==> songs[i] == m[order[i]]
      decreases |keys|
    {
      var key :| key in keys;
      songs := songs + [m[key]];
      order := order + [key];
      keys := keys - {key};
    }
    EnumerationSize(order, m);
  }

  /** What one rebuild derives from the map: its values in the key order
      `order`, those songs sorted by title ignoring case, the albums and
      artists of the (unsorted) values, and the folder tree BuildTree gives
      for them. */
  ghost predicate Rebuilt(m: map<string, Song>, paths: seq<string>, existingDirs: set<string>,
                          order: seq<string>, songs: seq<Song>, sorted: seq<Song>,
                          albums: seq<AlbumGroup>, artists: seq<ArtistGroup>, tree: seq<FolderNode>)
  {
    && Enumerates(order, m)
    && |songs| == |order| == |m|
    && (forall i :: 0 <= i < |songs| ==> songs[i] == m[order[i]])
    && sorted == SortBy(songs, FolderTree.TitleKey)
    && multiset(sorted) == multiset(songs) && SortedBy(sorted, FolderTree.TitleKey)
    && (albums, artists) == Aggregation.Aggregate(songs)
    && tree == FolderTree.BuildTree(songs, paths, existingDirs, false)
  }

  /** The derived views of one rebuild, computed from the map's values. */
  method ComputeViews(m: map<string, Song>, paths: seq<string>, existingDirs: set<string>)
    returns (ghost order: seq<string>, songs: seq<Song>, sorted: seq<Song>,
             albums: seq<AlbumGroup>, artists: seq<ArtistGroup>, tree: seq<FolderNode>)
    ensures Rebuilt(m, paths, existingDirs, order, songs, sorted, albums, artists, tree)
  {
    songs, order := EnumerateValues(m);
    var aggregates := Aggregation.Aggregate(songs);
    albums, artists := aggregates.0, aggregates.1;
    tree := FolderTree.Build(songs, paths, existingDirs, false);
    sorted := SortBy(songs, FolderTree.TitleKey);
    SortByFacts(songs, FolderTree.TitleKey);
  }

  class LibraryService {
    var songsByPath: map<string, Song>
    var allSongs: seq<Song>
    var allAlbums: seq<AlbumGroup>
    var allArtists: seq<ArtistGroup>
    var folderRootNodes: seq<FolderNode>
    var filePlaylists: seq<Playlist>
    /** Settings.Library.MusicFolderPaths */
    var musicFolderPaths: seq<string>
    /** A debounced rebuild has been asked for since the last rebuild. */
    var rebuildRequested: bool
    /** The map's values in the order the last rebuild enumerated them. */
    ghost var enumeratedKeys: seq<string>
    ghost var enumeratedSongs: seq<Song>

    /** Every playlist in FilePlaylists is file-backed. */
    ghost predicate Valid()
      reads this
    {
      forall p :: p in filePlaylists ==> p.HasFilePath()
    }

    constructor (musicFolderPaths: seq<string>)
      ensures Valid()
      ensures songsByPath == map[] && allSongs == [] && allAlbums == [] && allArtists == []
      ensures folderRootNodes == [] && filePlaylists == [] && !rebuildRequested
      ensures this.musicFolderPaths == musicFolderPaths
    {
      songsByPath := map[];
      allSongs := [];
      allAlbums := [];
      allArtists := [];
      folderRootNodes := [];
      filePlaylists := [];
      this.musicFolderPaths := musicFolderPaths;
      rebuildRequested := false;
      enumeratedKeys := [];
      enumeratedSongs := [];
    }

    /** GetSong: the song under this exact path, if any. */
    function GetSong(path: string): (r: Option<Song>)
      reads this
      ensures r.Some? <==> path in songsByPath
      ensures r.Some? ==> r.value == songsByPath[path]
    {
      if path in songsByPath then Some(songsByPath[path]) else None
    }

    /** The file watcher reported a new file; `created` is what the tag
        reader made of it. */
    method OnFileAdded(path: string, created: Option<Song>)
      modifies this`songsByPath, this`rebuildRequested
      ensures songsByPath == FileAdded(old(songsByPath), path, created)
      ensures rebuildRequested == (old(rebuildRequested) || (path !in old(songsByPath) && created.Some?))
    {
      if path in songsByPath {
        return;
      }
      if created.Some? {
        songsByPath := songsByPath[path := created.value];
        rebuildRequested := true;
      }
    }

    method OnFileRemoved(path: string)
      modifies this`songsByPath, this`rebuildRequested
      ensures songsByPath == FileRemoved(old(songsByPath), path)
      ensures rebuildRequested == (old(rebuildRequested) || path in old(songsByPath))
    {
      if path in songsByPath {
        songsByPath := songsByPath - {path};
        rebuildRequested := true;
      }
    }

    method OnFileRenamed(oldPath: string, newPath: string, created: Option<Song>)
      modifies this`songsByPath, this`rebuildRequested
      ensures songsByPath == FileRenamed(old(songsByPath), oldPath, newPath, created)
      ensures rebuildRequested == (old(rebuildRequested) || oldPath in old(songsByPath)
                                   || (newPath !in old(songsByPath) && created.Some?))
    {
      if oldPath in songsByPath {
        var song := songsByPath[oldPath].(filePath := newPath);
        songsByPath := songsByPath - {oldPath};
        if newPath !in songsByPath {
          songsByPath := songsByPath[newPath := song];
        }
        rebuildRequested := true;
      } else {
        OnFileAdded(newPath, created);
      }
    }

    /** The upsert loop both scans share. */
    method UpsertScanned(scanned: seq<Song>) returns (foundPaths: set<string>)
      modifies this`songsByPath
      ensures songsByPath == Upsert(old(songsByPath), scanned)
      ensures foundPaths == FoundKeys(scanned)
      ensures allSongs == old(allSongs) && allAlbums == old(allAlbums) && allArtists == old(allArtists)
      ensures folderRootNodes == old(folderRootNodes) && rebuildRequested == old(rebuildRequested)
    {
      foundPaths := {};
      var i := 0;
      while i < |scanned|
        invariant 0 <= i <= |scanned|
        invariant songsByPath == Upsert(old(songsByPath), scanned[..i])
        invariant foundPaths == FoundKeys(scanned[..i])
      {
        var song := scanned[i];
        assert scanned[..i + 1] == scanned[..i] + [song];
        assert scanned[..i + 1][..i] == scanned[..i];
        songsByPath := songsByPath[song.filePath := song];
        foundPaths := foundPaths + {Upper(song.filePath)};
        i := i + 1;
      }
      assert scanned[..i] == scanned;
    }

    /** The pruning loop of a full rescan, over a snapshot of the keys. */
    method PruneMissing(foundPaths: set<string>)
      modifies this`songsByPath
      ensures songsByPath == Pruned(old(songsByPath), foundPaths)
      ensures allSongs == old(allSongs) && allAlbums == old(allAlbums) && allArtists == old(allArtists)
      ensures folderRootNodes == old(folderRootNodes) && rebuildRequested == old(rebuildRequested)
    {
      ghost var before := songsByPath;
      var keys := songsByPath.Keys;
      while keys != {}
        invariant keys <= before.Keys
        invariant songsByPath == map k | k in before && (k in keys || IsDemoKey(k) || Upper(k) in foundPaths) :: before[k]
        decreases |keys|
      {
        var key :| key in keys;
        if !IsDemoKey(key) && Upper(key) !in foundPaths {
          songsByPath := songsByPath - {key};
        }
        keys := keys - {key};
      }
    }

    /** RebuildAggregatesAsync: the map's values in some enumeration order;
        albums, artists and the folder tree are built from that order, and
        AllSongs is the same songs sorted by title, ignoring case. */
    method RebuildAggregates(existingDirs: set<string>)
      modifies this`allSongs, this`allAlbums, this`allArtists, this`folderRootNodes
      modifies this`rebuildRequested, this`enumeratedKeys, this`enumeratedSongs
      ensures Rebuilt(songsByPath, musicFolderPaths, existingDirs, enumeratedKeys, enumeratedSongs,
                      allSongs, allAlbums, allArtists, folderRootNodes)
      ensures !rebuildRequested
      ensures songsByPath == old(songsByPath) && musicFolderPaths == old(musicFolderPaths)
    {
      ghost var order;
      var songs, sorted, albums, artists, tree;
      order, songs, sorted, albums, artists, tree := ComputeViews(songsByPath, musicFolderPaths, existingDirs);
      PublishViews(order, songs, sorted, albums, artists, tree);
    }

    /** Swaps freshly computed views in, as the rebuild's final assignments
        do, and clears the pending-rebuild flag. */
    method PublishViews(ghost order: seq<string>, songs: seq<Song>, sorted: seq<Song>,
                        albums: seq<AlbumGroup>, artists: seq<ArtistGroup>, tree: seq<FolderNode>)
      modifies this`allSongs, this`allAlbums, this`allArtists, this`folderRootNodes
      modifies this`rebuildRequested, this`enumeratedKeys, this`enumeratedSongs
      ensures enumeratedKeys == order && enumeratedSongs == songs && allSongs == sorted
      ensures allAlbums == albums && allArtists == artists && folderRootNodes == tree
      ensures !rebuildRequested
      ensures songsByPath == old(songsByPath) && musicFolderPaths == old(musicFolderPaths)
    {
      enumeratedKeys, enumeratedSongs, allSongs, allAlbums, allArtists, folderRootNodes
        := order, songs, sorted, albums, artists, tree;
      rebuildRequested := false;
    }

    /** SyncFilePlaylists: the full reconciliation against the current
        FilePlaylists. A case-insensitive path clash among them makes the
        dictionary throw; the list then stays as it was. */
    method SyncFilePlaylists(found: seq<Playlist>) returns (ok: bool)
      requires Valid()
      requires forall f :: f in found ==> f !in filePlaylists
      modifies this`filePlaylists, filePlaylists
      ensures Valid()
      ensures ok == PlaylistSync.KeyMap(old(filePlaylists)).Ok?
      ensures ok ==> filePlaylists == PlaylistSync.Selected(PlaylistSync.KeyMap(old(filePlaylists)).value, found)
      ensures ok ==> forall e :: e in old(filePlaylists) ==> PlaylistSync.Refreshed(e, found)
      ensures !ok ==> filePlaylists == old(filePlaylists) && forall e :: e in old(filePlaylists) ==> unchanged(e)
      ensures allSongs == old(allSongs) && allAlbums == old(allAlbums) && allArtists == old(allArtists)
      ensures folderRootNodes == old(folderRootNodes) && rebuildRequested == old(rebuildRequested)
    {
      var r := PlaylistSync.PerformFullSync(filePlaylists, found);
      if r.Fail? {
        return false;
      }
      PlaylistSync.SelectedFileBacked(filePlaylists, found);
      filePlaylists := r.value.items;
      ok := true;
    }

    /** UpdateFilePlaylistsIncremental: a copy of FilePlaylists with the
        unmatched found playlists appended. */
    method UpdateFilePlaylistsIncremental(found: seq<Playlist>) returns (ok: bool)
      requires Valid()
      requires forall f :: f in found ==> f !in filePlaylists
      modifies this`filePlaylists, filePlaylists
      ensures Valid()
      ensures ok == PlaylistSync.KeyMap(old(filePlaylists)).Ok?
      ensures ok ==> filePlaylists == old(filePlaylists) + PlaylistSync.Unmatched(PlaylistSync.KeyMap(old(filePlaylists)).value, found)
      ensures ok ==> forall e :: e in old(filePlaylists) ==> PlaylistSync.Refreshed(e, found)
      ensures !ok ==> filePlaylists == old(filePlaylists) && forall e :: e in old(filePlaylists) ==> unchanged(e)
      ensures songsByPath == old(songsByPath) && musicFolderPaths == old(musicFolderPaths)
      ensures allSongs == old(allSongs) && allAlbums == old(allAlbums) && allArtists == old(allArtists)
      ensures folderRootNodes == old(folderRootNodes) && rebuildRequested == old(rebuildRequested)
    {
      var current := new PlaylistSync.PlaylistList(filePlaylists);
      var r := PlaylistSync.PerformIncrementalSync(current, found);
      if r.Fail? {
        return false;
      }
      var m := PlaylistSync.KeyMap(old(filePlaylists)).value;
      forall p | p in PlaylistSync.Unmatched(m, found)
        ensures p.HasFilePath()
      {
        PlaylistSync.UnmatchedExactly(m, found, p);
      }
      filePlaylists := current.items;
      ok := true;
    }

    /** RescanLibraryFullAsync over the scanner's result: upsert every
        scanned song, prune what was not found, sync the file playlists in
        full, then rebuild. A playlist clash stops it before the rebuild. */
    method RescanLibraryFull(scanned: seq<Song>, foundPlaylists: seq<Playlist>, existingDirs: set<string>) returns (ok: bool)
      requires Valid()
      requires forall f :: f in foundPlaylists ==> f !in filePlaylists
      modifies this, filePlaylists
      ensures Valid()
      ensures songsByPath == Rescanned(old(songsByPath), scanned)
      ensures ok == PlaylistSync.KeyMap(old(filePlaylists)).Ok?
      ensures ok ==> filePlaylists == PlaylistSync.Selected(PlaylistSync.KeyMap(old(filePlaylists)).value, foundPlaylists)
      ensures ok ==> forall e :: e in old(filePlaylists) ==> PlaylistSync.Refreshed(e, foundPlaylists)
      ensures !ok ==> filePlaylists == old(filePlaylists) && forall e :: e in old(filePlaylists) ==> unchanged(e)
      ensures ok ==> Rebuilt(songsByPath, musicFolderPaths, existingDirs, enumeratedKeys, enumeratedSongs,
                             allSongs, allAlbums, allArtists, folderRootNodes)
      ensures ok ==> !rebuildRequested
      ensures !ok ==> allSongs == old(allSongs) && allAlbums == old(allAlbums) && allArtists == old(allArtists)
                      && folderRootNodes == old(folderRootNodes) && rebuildRequested == old(rebuildRequested)
      ensures musicFolderPaths == old(musicFolderPaths)
    {
      ghost var m0, paths0, lists0 := songsByPath, musicFolderPaths, filePlaylists;
      var foundPaths := UpsertScanned(scanned);
      PruneMissing(foundPaths);
      ghost var m1 := songsByPath;
      assert m1 == Rescanned(m0, scanned) && musicFolderPaths == paths0 && filePlaylists == lists0;
      ok := SyncFilePlaylists(foundPlaylists);
      assert songsByPath == m1 && musicFolderPaths == paths0;
      if ok {
        RebuildAggregates(existingDirs);
        assert songsByPath == m1 && musicFolderPaths == paths0;
      }
    }

    /** ScanFolder: upserts only (nothing is removed), then an incremental
        playlist update and a rebuild. */
    method ScanFolder(scanned: seq<Song>, foundPlaylists: seq<Playlist>, existingDirs: set<string>) returns (ok: bool)
      requires Valid()
      requires forall f :: f in foundPlaylists ==> f !in filePlaylists
      modifies this, filePlaylists
      ensures Valid()
      ensures songsByPath == Upsert(old(songsByPath), scanned)
      ensures old(songsByPath).Keys <= songsByPath.Keys
      ensures ok == PlaylistSync.KeyMap(old(filePlaylists)).Ok?
      ensures ok ==> filePlaylists == old(filePlaylists) + PlaylistSync.Unmatched(PlaylistSync.KeyMap(old(filePlaylists)).value, foundPlaylists)
      ensures ok ==> forall e :: e in old(filePlaylists) ==> PlaylistSync.Refreshed(e, foundPlaylists)
      ensures !ok ==> filePlaylists == old(filePlaylists) && forall e :: e in old(filePlaylists) ==> unchanged(e)
      ensures ok ==> Rebuilt(songsByPath, musicFolderPaths, existingDirs, enumeratedKeys, enumeratedSongs,
                             allSongs, allAlbums, allArtists, folderRootNodes)
      ensures ok ==> !rebuildRequested
      ensures !ok ==> allSongs == old(allSongs) && allAlbums == old(allAlbums) && allArtists == old(allArtists)
                      && folderRootNodes == old(folderRootNodes) && rebuildRequested == old(rebuildRequested)
      ensures musicFolderPaths == old(musicFolderPaths)
    {
      ghost var m0, paths0, lists0 := songsByPath, musicFolderPaths, filePlaylists;
      var _ := UpsertScanned(scanned);
      ghost var m1 := songsByPath;
      assert m1 == Upsert(m0, scanned) && musicFolderPaths == paths0 && filePlaylists == lists0;
      ok := UpdateFilePlaylistsIncremental(foundPlaylists);
      assert songsByPath == m1 && musicFolderPaths == paths0;
      if ok {
        RebuildAggregates(existingDirs);
        assert songsByPath == m1 && musicFolderPaths == paths0;
      }
    }

    /** UpdateSongMetadata: the tag writer's verdict `saved` decides whether
        the song's Title, Artist and Album change; a rebuild is then asked
        for. */
    method UpdateSongMetadata(path: string, metadata: SongMetadata, saved: bool) returns (success: bool)
      modifies this`songsByPath, this`rebuildRequested
      ensures success == saved
      ensures saved && path in old(songsByPath) ==>
        songsByPath == old(songsByPath)[path := WithMetadata(old(songsByPath)[path], metadata)]
      ensures !(saved && path in old(songsByPath)) ==> songsByPath == old(songsByPath)
      ensures rebuildRequested == (old(rebuildRequested) || saved)
    {
      success := saved;
      if saved {
        if path in songsByPath {
          songsByPath := songsByPath[path := WithMetadata(songsByPath[path], metadata)];
        }
        rebuildRequested := true;
      }
    }

    /** SearchAsync: the search over AllSongs. */
    function SearchSongs(query: string): (r: seq<Song>)
      reads this
      ensures IsBlank(query) ==> r == allSongs
      ensures forall s :: s in r ==> s in allSongs
      ensures !IsBlank(query) ==>
        forall s :: s in r <==> s in allSongs && Search.MatchesAll(s, Search.Tokens(query))
    {
      Search.SearchSongs(allSongs, query)
    }
  }
}
