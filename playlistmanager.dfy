/** PlaylistManager: the user's manual playlists and their persistence. The
    persistence service keeps one file per playlist, named by its Id; it is
    modelled as a map from Id to the stored record. */
module PlaylistManagement {
  import opened Wrappers
  import opened Models

  /** What the JSON file of a playlist holds besides its Id. */
  datatype StoredPlaylist = StoredPlaylist(name: string, songFilePaths: seq<string>, kind: PlaylistType)

  function Snapshot(p: Playlist): StoredPlaylist
    reads p
  {
    StoredPlaylist(p.name, p.songFilePaths, p.kind)
  }

  /** `List<Playlist>.Remove(p)`: drops the first occurrence (playlists
      compare by reference). */
  function RemoveFirst(ps: seq<Playlist>, p: Playlist): (r: seq<Playlist>)
    ensures p in ps ==> |r| == |ps| - 1
    ensures p !in ps ==> r == ps
    ensures multiset(r) == multiset(ps) - multiset{p}
    ensures forall q :: q in r ==> q in ps
  {
    if ps == [] then []
    else
      assert ps == [ps[0]] + ps[1..];
      if ps[0] == p then ps[1..]
      else [ps[0]] + RemoveFirst(ps[1..], p)
  }

  /** A playlist listed once stays listed nowhere after its removal; the
      others keep their places relative to each other. */
  lemma {:induction false} RemoveFirstOnce(ps: seq<Playlist>, p: Playlist)
    requires forall i, j :: 0 <= i < j < |ps| ==> ps[i] != ps[j]
    ensures p !in RemoveFirst(ps, p)
    ensures forall i, j :: 0 <= i < j < |RemoveFirst(ps, p)| ==> RemoveFirst(ps, p)[i] != RemoveFirst(ps, p)[j]
  {
    if ps != [] && ps[0] != p {
      RemoveFirstOnce(ps[1..], p);
      var rest := RemoveFirst(ps[1..], p);
      assert ps[0] !in ps[1..];
      assert ps[0] !in rest by {
        assert multiset(rest)[ps[0]] <= multiset(ps[1..])[ps[0]];
      }
    }
  }

  predicate Distinct(paths: seq<string>)
  {
    forall i, j :: 0 <= i < j < |paths| ==> paths[i] != paths[j]
  }

  /** The song list after AddSongToPlaylist on a manual playlist: the path
      is appended unless it is already there. */
  function WithPath(paths: seq<string>, path: string): (r: seq<string>)
  {
    if path in paths then paths else paths + [path]
  }

  /** Adding a path keeps the old paths in order, makes the path present,
      adds nothing else, introduces no duplicate and is idempotent. */
  lemma WithPathFacts(paths: seq<string>, path: string)
    ensures path in WithPath(paths, path)
    ensures WithPath(paths, path)[..|paths|] == paths
    ensures |WithPath(paths, path)| == |paths| + (if path in paths then 0 else 1)
    ensures Distinct(paths) ==> Distinct(WithPath(paths, path))
    ensures WithPath(WithPath(paths, path), path) == WithPath(paths, path)
  {
  }

  class PlaylistManager {
    /** _manualPlaylists */
    var manualPlaylists: seq<Playlist>
    /** The playlist directory: Id to file contents. */
    var stored: map<nat, StoredPlaylist>
    /** How often PlaylistsChanged has been raised. */
    var changes: nat

    /** Every listed playlist is a manual one. */
    ghost predicate Valid()
      reads this
    {
      forall p :: p in manualPlaylists ==> p.kind == Manual
    }

    /** The loader forces the Manual type on every playlist it reads. */
    constructor (loaded: seq<Playlist>, files: map<nat, StoredPlaylist>)
      requires forall p :: p in loaded ==> p.kind == Manual
      ensures Valid()
      ensures manualPlaylists == loaded && stored == files && changes == 0
    {
      manualPlaylists := loaded;
      stored := files;
      changes := 0;
    }

    /** CreatePlaylist: a new empty Manual playlist with the given name and a
        new Id, appended and written to its file. */
    method CreatePlaylist(name: string, id: nat) returns (p: Playlist)
      requires Valid()
      modifies this
      ensures Valid()
      ensures fresh(p) && p.id == id && p.name == name && p.songFilePaths == []
      ensures p.kind == Manual && p.filePath.None?
      ensures manualPlaylists == old(manualPlaylists) + [p]
      ensures stored == old(stored)[id := StoredPlaylist(name, [], Manual)]
      ensures changes == old(changes) + 1
    {
      p := new Playlist(id, name, [], Manual, None);
      manualPlaylists := manualPlaylists + [p];
      SavePlaylist(p);
    }

    /** SavePlaylist: only a manual playlist is written. */
    method SavePlaylist(p: Playlist)
      modifies this`stored, this`changes
      ensures p.kind == Manual ==> stored == old(stored)[p.id := Snapshot(p)] && changes == old(changes) + 1
      ensures p.kind != Manual ==> stored == old(stored) && changes == old(changes)
    {
      if p.kind == Manual {
        stored := stored[p.id := Snapshot(p)];
        changes := changes + 1;
      }
    }

    /** DeletePlaylist: only a manual playlist that is listed is removed,
        from the list and from storage; otherwise nothing changes. Since
        every listed playlist is manual, a listed one is always removed. */
    method DeletePlaylist(p: Playlist)
      requires Valid()
      modifies this
      ensures Valid()
      ensures p.kind == Manual && p in old(manualPlaylists) ==>
        && manualPlaylists == RemoveFirst(old(manualPlaylists), p)
        && stored == old(stored) - {p.id}
        && changes == old(changes) + 1
      ensures !(p.kind == Manual && p in old(manualPlaylists)) ==>
        manualPlaylists == old(manualPlaylists) && stored == old(stored) && changes == old(changes)
      ensures p in old(manualPlaylists) ==>
        multiset(manualPlaylists) == multiset(old(manualPlaylists)) - multiset{p} && changes == old(changes) + 1
    {
      if p.kind == Manual {
        if p in manualPlaylists {
          manualPlaylists := RemoveFirst(manualPlaylists, p);
          stored := stored - {p.id};
          changes := changes + 1;
        }
      }
    }

    /** AddSongToPlaylist: a manual playlist that lacks the song's path gets
        it appended and is saved; anything else is left alone. */
    method AddSongToPlaylist(p: Playlist, song: Song)
      modifies p, this`stored, this`changes
      ensures p.name == old(p.name)
      ensures p.songFilePaths == if p.kind == Manual then WithPath(old(p.songFilePaths), song.filePath) else old(p.songFilePaths)
      ensures p.kind == Manual && song.filePath !in old(p.songFilePaths) ==>
        stored == old(stored)[p.id := Snapshot(p)] && changes == old(changes) + 1
      ensures !(p.kind == Manual && song.filePath !in old(p.songFilePaths)) ==>
        stored == old(stored) && changes == old(changes)
    {
      if p.kind == Manual && song.filePath !in p.songFilePaths {
        p.songFilePaths := p.songFilePaths + [song.filePath];
        SavePlaylist(p);
      }
    }
  }
}
