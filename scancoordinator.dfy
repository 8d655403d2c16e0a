/** LibraryScanCoordinator: drives the folder scanner and tells the data
    manager what to do with the results. The data manager's calls are
    recorded as a log of requests; the scanner is an oracle from a folder to
    the songs and playlists found under it. */
module ScanCoordinator {
  import opened Text
  import opened Models
  import FolderTree

  /** The calls the coordinator makes on LibraryDataManager. */
  datatype Request =
    | AddOrUpdateSong(song: Song)
    | RemoveSong(path: string)
    | UpdateFilePlaylists(found: seq<Playlist>, incremental: bool)

  /** What FolderScanner.ScanAsync returns for one folder. */
  datatype ScanResult = ScanResult(songs: seq<Song>, playlists: seq<Playlist>)

  /** `new HashSet<string>(paths, StringComparer.OrdinalIgnoreCase)`. */
  function FoundPaths(songs: seq<Song>): set<string>
  {
    set s | s in songs :: Upper(s.filePath)
  }

  /** A library song the cleanup removes: not a demo song (the scheme is
      matched ignoring case) and not found, ignoring case. */
  predicate Missing(s: Song, found: set<string>)
  {
    !FolderTree.IsDemoPath(s.filePath, true) && Upper(s.filePath) !in found
  }

  /** One AddOrUpdateSong per scanned song, in scan order. */
  function Adds(songs: seq<Song>): (r: seq<Request>)
    ensures |r| == |songs|
    ensures forall i :: 0 <= i < |r| ==> r[i] == AddOrUpdateSong(songs[i])
    decreases |songs|
  {
    if songs == [] then []
    else Adds(songs[..|songs| - 1]) + [AddOrUpdateSong(songs[|songs| - 1])]
  }

  /** The removals RemoveMissingSongs requests, in library order. */
  function Removals(library: seq<Song>, found: set<string>): (r: seq<Request>)
    ensures |r| <= |library|
    ensures forall q :: q in r ==> q.RemoveSong?
    decreases |library|
  {
    if library == [] then []
    else
      var s := library[|library| - 1];
      Removals(library[..|library| - 1], found) + (if Missing(s, found) then [RemoveSong(s.filePath)] else [])
  }

  /** ProcessScanResults: every song is added or updated, then (on cleanup)
      the missing songs are removed, then the file playlists are synced, in
      full on cleanup and incrementally otherwise. */
  function Processed(r: ScanResult, cleanup: bool, library: seq<Song>): seq<Request>
  {
    Adds(r.songs)
    + (if cleanup then Removals(library, FoundPaths(r.songs)) else [])
    + [UpdateFilePlaylists(r.playlists, !cleanup)]
  }

  /** ScanAllFoldersAsync as written: each root is scanned and processed
      with cleanup against that root's results alone. */
  function PerRoot(roots: seq<string>, scan: string -> ScanResult, library: seq<Song>): (r: seq<Request>)
    ensures |roots| > 0 ==> |r| > 0 && r[|r| - 1] == UpdateFilePlaylists(scan(roots[|roots| - 1]).playlists, false)
    decreases |roots|
  {
    if roots == [] then []
    else PerRoot(roots[..|roots| - 1], scan, library) + Processed(scan(roots[|roots| - 1]), true, library)
  }

  lemma AppendAssoc<T>(a: seq<T>, b: seq<T>, c: seq<T>)
    ensures a + b + c == a + (b + c)
  {
  }

  lemma PerRootStep(roots: seq<string>, i: nat, scan: string -> ScanResult, library: seq<Song>)
    requires i < |roots|
    ensures PerRoot(roots[..i + 1], scan, library) ==
      PerRoot(roots[..i], scan, library) + Processed(scan(roots[i]), true, library)
  {
    assert roots[..i + 1][..i] == roots[..i];
  }

  /** The results of all roots, concatenated in root order. */
  function Merged(roots: seq<string>, scan: string -> ScanResult): (r: ScanResult)
    ensures forall i :: 0 <= i < |roots| ==> forall s :: s in scan(roots[i]).songs ==> s in r.songs
    ensures forall s :: s in r.songs ==> exists i :: 0 <= i < |roots| && s in scan(roots[i]).songs
    decreases |roots|
  {
    if roots == [] then ScanResult([], [])
    else
      var prefix := roots[..|roots| - 1];
      var rest := Merged(prefix, scan);
      var last := scan(roots[|roots| - 1]);
      assert forall i :: 0 <= i < |prefix| ==> roots[i] == prefix[i];
      ScanResult(rest.songs + last.songs, rest.playlists + last.playlists)
  }

  /** The cleanup removes exactly the non-demo library songs whose path was
      not found, ignoring case. */
  lemma {:induction false} RemovalsExactly(library: seq<Song>, found: set<string>, path: string)
    ensures RemoveSong(path) in Removals(library, found) <==>
      exists s :: s in library && s.filePath == path && Missing(s, found)
    decreases |library|
  {
    if library != [] {
      var prefix := library[..|library| - 1];
      assert library == prefix + [library[|library| - 1]];
      RemovalsExactly(prefix, found, path);
    }
  }

  /** The order of one processing step: the adds come first, one per song;
      without cleanup nothing is removed; the playlist sync comes last, in
      full mode exactly when cleaning up. */
  lemma ProcessedOrder(r: ScanResult, cleanup: bool, library: seq<Song>)
    ensures |Processed(r, cleanup, library)| > |r.songs|
    ensures Processed(r, cleanup, library)[..|r.songs|] == Adds(r.songs)
    ensures forall i :: |r.songs| <= i < |Processed(r, cleanup, library)| ==>
      !Processed(r, cleanup, library)[i].AddOrUpdateSong?
    ensures !cleanup ==> forall q :: q in Processed(r, cleanup, library) ==> !q.RemoveSong?
    ensures Processed(r, cleanup, library)[|Processed(r, cleanup, library)| - 1] ==
      UpdateFilePlaylists(r.playlists, !cleanup)
  {
    var p := Processed(r, cleanup, library);
    var removals := if cleanup then Removals(library, FoundPaths(r.songs)) else [];
    assert p == Adds(r.songs) + removals + [UpdateFilePlaylists(r.playlists, !cleanup)];
    forall i | |r.songs| <= i < |p|
      ensures !p[i].AddOrUpdateSong?
    {
      if i < |r.songs| + |removals| {
        assert p[i] == removals[i - |r.songs|] && p[i] in removals;
      } else {
        assert p[i] == UpdateFilePlaylists(r.playlists, !cleanup);
      }
    }
  }

  /** A cleaning scan never asks to remove a song it found itself. */
  lemma ProcessedKeepsFound(r: ScanResult, library: seq<Song>, path: string)
    requires exists s :: s in r.songs && Upper(s.filePath) == Upper(path)
    ensures RemoveSong(path) !in Processed(r, true, library)
  {
    RemovalsExactly(library, FoundPaths(r.songs), path);
    ProcessedOrder(r, true, library);
    var removals := Removals(library, FoundPaths(r.songs));
    assert Processed(r, true, library) == Adds(r.songs) + removals + [UpdateFilePlaylists(r.playlists, false)];
  }

  // The per-root cleanup removes what the other roots found: a song under
  // the second root is scheduled for removal by the first root's cleanup.

  function CrossRootSong(): Song
  {
    Song("/b/x.mp3", "X", "", "", 0.0, false)
  }

  function CrossRootScan(root: string): ScanResult
  {
    if root == "/b" then ScanResult([CrossRootSong()], []) else ScanResult([], [])
  }

  lemma PerRootRemovesFoundSong()
    ensures CrossRootSong() in CrossRootScan("/b").songs
    ensures RemoveSong("/b/x.mp3") in PerRoot(["/a", "/b"], CrossRootScan, [CrossRootSong()])
  {
    var s := CrossRootSong();
    assert Upper(s.filePath)[0] == '/';
    assert !FolderTree.IsDemoPath(s.filePath, true) by {
      assert Upper("demo://")[0] == 'D';
    }
    assert Missing(s, FoundPaths([]));
    RemovalsExactly([s], FoundPaths([]), s.filePath);
    var first := Processed(CrossRootScan("/a"), true, [s]);
    assert RemoveSong("/b/x.mp3") in first;
    assert ["/a", "/b"][..1] == ["/a"];
    assert ["/a"][..0] == [];
    assert PerRoot(["/a", "/b"], CrossRootScan, [s]) == first + Processed(CrossRootScan("/b"), true, [s]);
  }

  /** The scan of every root, processed as one result: the removals are
      exactly the non-demo library songs that no root's scan found. */
  lemma AllRootsRemovals(roots: seq<string>, scan: string -> ScanResult, library: seq<Song>, path: string)
    ensures RemoveSong(path) in Processed(Merged(roots, scan), true, library) <==>
      exists s :: s in library && s.filePath == path && !FolderTree.IsDemoPath(path, true)
        && forall i, t :: 0 <= i < |roots| && t in scan(roots[i]).songs ==> Upper(t.filePath) != Upper(path)
  {
    var merged := Merged(roots, scan);
    var found := FoundPaths(merged.songs);
    var removals := Removals(library, found);
    assert Processed(merged, true, library) == Adds(merged.songs) + removals + [UpdateFilePlaylists(merged.playlists, false)];
    RemovalsExactly(library, found, path);
    if RemoveSong(path) in removals {
      forall i, t | 0 <= i < |roots| && t in scan(roots[i]).songs
        ensures Upper(t.filePath) != Upper(path)
      {
        assert t in merged.songs;
      }
    }
  }

  /** The coordinator with the requests it has made so far. `library` is
      the data manager's AllSongs as RemoveMissingSongs reads it: the
      requests themselves only schedule a rebuild, so it does not change
      while the coordinator runs. */
  class Coordinator {
    var requests: seq<Request>
    const library: seq<Song>

    constructor (library: seq<Song>)
      ensures requests == [] && this.library == library
    {
      requests := [];
      this.library := library;
    }

    /** RemoveMissingSongs: one pass over the library. */
    method RemoveMissingSongs(foundSongs: seq<Song>)
      modifies this`requests
      ensures requests == old(requests) + Removals(library, FoundPaths(foundSongs))
    {
      var foundPaths := FoundPaths(foundSongs);
      var i := 0;
      while i < |library|
        invariant 0 <= i <= |library|
        invariant requests == old(requests) + Removals(library[..i], foundPaths)
      {
        var song := library[i];
        assert library[..i + 1][..i] == library[..i];
        if !FolderTree.IsDemoPath(song.filePath, true) && Upper(song.filePath) !in foundPaths {
          requests := requests + [RemoveSong(song.filePath)];
        }
        i := i + 1;
      }
      assert library[..i] == library;
    }

    /** ProcessScanResults. */
    method ProcessScanResults(songs: seq<Song>, playlists: seq<Playlist>, cleanup: bool)
      modifies this`requests
      ensures requests == old(requests) + Processed(ScanResult(songs, playlists), cleanup, library)
    {
      var i := 0;
      while i < |songs|
        invariant 0 <= i <= |songs|
        invariant requests == old(requests) + Adds(songs[..i])
      {
        assert songs[..i + 1][..i] == songs[..i];
        requests := requests + [AddOrUpdateSong(songs[i])];
        i := i + 1;
      }
      assert songs[..i] == songs;
      if cleanup {
        RemoveMissingSongs(songs);
      }
      requests := requests + [UpdateFilePlaylists(playlists, !cleanup)];
    }

    /** ScanSingleFolderAsync: no cleanup, incremental playlist sync. */
    method ScanSingleFolder(path: string, scan: string -> ScanResult)
      modifies this`requests
      ensures requests == old(requests) + Processed(scan(path), false, library)
    {
      var result := scan(path);
      ProcessScanResults(result.songs, result.playlists, false);
    }

    /** ScanAllFoldersAsync as written: one cleaning scan per root. */
    method ScanAllFoldersPerRoot(roots: seq<string>, scan: string -> ScanResult)
      modifies this`requests
      ensures requests == old(requests) + PerRoot(roots, scan, library)
    {
      var i := 0;
      while i < |roots|
        invariant 0 <= i <= |roots|
        invariant requests == old(requests) + PerRoot(roots[..i], scan, library)
      {
        var result := scan(roots[i]);
        ghost var done := PerRoot(roots[..i], scan, library);
        ProcessScanResults(result.songs, result.playlists, true);
        ghost var step := Processed(ScanResult(result.songs, result.playlists), true, library);
        assert requests == old(requests) + (done + step) by {
          AppendAssoc(old(requests), done, step);
        }
        assert ScanResult(result.songs, result.playlists) == result;
        PerRootStep(roots, i, scan, library);
        i := i + 1;
      }
      assert roots[..i] == roots;
    }

    /** ScanAllFoldersAsync as intended: every root is scanned, then the
        combined result is processed once, with cleanup against all that was
        found and one full playlist sync. */
    method ScanAllFolders(roots: seq<string>, scan: string -> ScanResult)
      modifies this`requests
      ensures requests == old(requests) + Processed(Merged(roots, scan), true, library)
    {
      var songs, playlists := [], [];
      var i := 0;
      while i < |roots|
        invariant 0 <= i <= |roots|
        invariant Merged(roots[..i], scan) == ScanResult(songs, playlists)
      {
        assert roots[..i + 1][..i] == roots[..i];
        var result := scan(roots[i]);
        songs, playlists := songs + result.songs, playlists + result.playlists;
        i := i + 1;
      }
      assert roots[..i] == roots;
      ProcessScanResults(songs, playlists, true);
    }
  }
}
