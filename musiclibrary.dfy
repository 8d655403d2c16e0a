/** MusicLibraryService: turns files into songs and M3U files into
    file-backed playlists. The file system is an oracle: the files that
    exist with their sizes, the lines of each readable playlist file, and
    the process's current directory. Tags are what the tag reader returned,
    or nothing when it threw. */
module MusicLibrary {
  import opened Wrappers
  import opened Text
  import opened Models
  import opened Paths

  datatype FileSystem = FileSystem(sizes: map<string, nat>, cwd: string)

  /** What TagLib reports for a file. */
  datatype Tags = Tags(
    title: Option<string>,
    performers: seq<string>,
    album: Option<string>,
    duration: real,
    pictureCount: nat)

  /** File.Exists */
  predicate Exists(fs: FileSystem, path: string)
  {
    path in fs.sizes
  }

  /** IsFileValid: a non-blank path naming an existing, non-empty file. */
  function IsFileValid(fs: FileSystem, path: string): (valid: bool)
    ensures IsBlank(path) ==> !valid
    ensures !Exists(fs, path) ==> !valid
    ensures Exists(fs, path) && fs.sizes[path] == 0 ==> !valid
    ensures valid <==> !IsBlank(path) && Exists(fs, path) && fs.sizes[path] > 0
  {
    if IsBlank(path) || !Exists(fs, path) then false
    else fs.sizes[path] > 0
  }

  // Songs.

  /** GetSongTitle: the tag title unless it is missing or blank, else the
      file name without its extension. */
  function GetSongTitle(tagTitle: Option<string>, filePath: string): (title: string)
    ensures tagTitle.Some? && !IsBlank(tagTitle.value) ==> title == tagTitle.value
    ensures tagTitle.None? || IsBlank(tagTitle.value) ==> title == FileNameWithoutExtension(filePath)
  {
    if tagTitle.None? || IsBlank(tagTitle.value) then FileNameWithoutExtension(filePath)
    else tagTitle.value
  }

  /** CreateSongFromPath: what is known without tags. */
  function CreateSongFromPath(filePath: string): (s: Song)
    ensures s.filePath == filePath && s.title == FileNameWithoutExtension(filePath)
    ensures s.artist == "Unknown Artist" && s.album == "Unknown Album"
    ensures s.duration == 0.0 && !s.hasArt
  {
    Song(filePath, FileNameWithoutExtension(filePath), "Unknown Artist", "Unknown Album", 0.0, false)
  }

  /** CreateSongFromTags: the first performer, the album and the title
      where present, with the same fallbacks. */
  function CreateSongFromTags(tags: Tags, filePath: string): (s: Song)
    ensures s.filePath == filePath && s.title == GetSongTitle(tags.title, filePath)
    ensures s.artist == (if |tags.performers| > 0 then tags.performers[0] else "Unknown Artist")
    ensures s.album == (if tags.album.Some? then tags.album.value else "Unknown Album")
    ensures s.duration == tags.duration && s.hasArt == (tags.pictureCount > 0)
  {
    Song(filePath,
         GetSongTitle(tags.title, filePath),
         if |tags.performers| > 0 then tags.performers[0] else "Unknown Artist",
         if tags.album.Some? then tags.album.value else "Unknown Album",
         tags.duration,
         tags.pictureCount > 0)
  }

  /** ProcessMusicFile: the tag reader's song, or the path fallback when it
      threw. */
  function ProcessMusicFile(filePath: string, tags: Option<Tags>): (s: Song)
    ensures s.filePath == filePath
    ensures tags.None? ==> s == CreateSongFromPath(filePath)
    ensures tags.Some? ==> s.title == GetSongTitle(tags.value.title, filePath)
    ensures tags.Some? ==> s.duration == tags.value.duration && s.hasArt == (tags.value.pictureCount > 0)
  {
    if tags.Some? then CreateSongFromTags(tags.value, filePath) else CreateSongFromPath(filePath)
  }

  /** CreateSongFromFileAsync: no song for an invalid file. */
  function CreateSongFromFile(fs: FileSystem, filePath: string, tags: Option<Tags>): (r: Option<Song>)
    ensures r.Some? <==> IsFileValid(fs, filePath)
    ensures r.Some? ==> r.value.filePath == filePath
  {
    if IsFileValid(fs, filePath) then Some(ProcessMusicFile(filePath, tags)) else None
  }

  /** A title taken from the path is a single file name: it has no
      directory separator, and tags with a non-blank title win over it. */
  lemma FallbackTitle(filePath: string, tags: Tags)
    ensures Sep !in CreateSongFromPath(filePath).title
    ensures tags.title.Some? && !IsBlank(tags.title.value) ==>
      CreateSongFromTags(tags, filePath).title == tags.title.value
    ensures tags.title.None? ==> CreateSongFromTags(tags, filePath).title == CreateSongFromPath(filePath).title
  {
    var name := FileName(filePath);
    var dot := LastIndexOf(name, '.');
    assert Sep !in name;
    if dot >= 0 {
      assert forall c :: c in name[..dot] ==> c in name;
    }
  }

  /** The stem of a path whose last separator is at `slash` and whose
      file name's last '.' is at `dot`. */
  lemma StemBetween(p: string, slash: nat, dot: nat)
    requires slash < dot < |p| && p[slash] == Sep && p[dot] == '.'
    requires forall j :: slash < j < |p| ==> p[j] != Sep
    requires forall j :: dot < j < |p| ==> p[j] != '.'
    ensures FileNameWithoutExtension(p) == p[slash + 1..dot]
  {
    var name := FileName(p);
    assert name == p[slash + 1..];
    assert name[dot - slash - 1] == '.';
    assert LastIndexOf(name, '.') == dot - slash - 1;
  }

  /** The corrupt-file scenario: the title is the file name's stem. */
  lemma CorruptFileScenario()
    ensures ProcessMusicFile("/tmp/corrupt.mp3", None) ==
      Song("/tmp/corrupt.mp3", "corrupt", "Unknown Artist", "Unknown Album", 0.0, false)
  {
    var p := "/tmp/corrupt.mp3";
    StemBetween(p, 4, 12);
    assert p[5..12] == "corrupt";
  }

  // Playlist files.

  /** Whether a line of an M3U file names a song: blank lines and lines
      whose first character is '#' do not (the test is on the raw line,
      before trimming). */
  predicate NamesSong(line: string)
  {
    !IsBlank(line) && !(|line| > 0 && line[0] == '#')
  }

  /** The path a line stands for, if it names a song: trimmed, and
      resolved against the playlist's directory when relative. */
  function SongPath(line: string, dir: string, cwd: string): (r: Option<string>)
    ensures r.Some? <==> NamesSong(line)
  {
    if !NamesSong(line) then None
    else
      var p := Trim(line);
      Some(if IsPathRooted(p) then p else FullPath(Combine(dir, p), cwd))
  }

  /** The existing paths among those the lines stand for, in line order. */
  function Kept(lines: seq<string>, path: string -> Option<string>, fs: FileSystem): (paths: seq<string>)
    ensures |paths| <= |lines|
    ensures forall p :: p in paths ==> Exists(fs, p)
    decreases |lines|
  {
    if lines == [] then []
    else
      var rest := Kept(lines[..|lines| - 1], path, fs);
      var q := path(lines[|lines| - 1]);
      if q.Some? && Exists(fs, q.value) then rest + [q.value] else rest
  }

  /** The song paths a playlist file in `dir` yields. */
  function PlaylistPaths(lines: seq<string>, dir: string, fs: FileSystem): seq<string>
  {
    Kept(lines, line => SongPath(line, dir, fs.cwd), fs)
  }

  lemma {:induction false} KeptExactly(lines: seq<string>, path: string -> Option<string>, fs: FileSystem, p: string)
    ensures p in Kept(lines, path, fs) <==>
      Exists(fs, p) && exists i :: 0 <= i < |lines| && path(lines[i]) == Some(p)
    decreases |lines|
  {
    if lines != [] {
      var prefix := lines[..|lines| - 1];
      var rest := Kept(prefix, path, fs);
      KeptExactly(prefix, path, fs, p);
      if p in Kept(lines, path, fs) && p in rest {
        var i :| 0 <= i < |prefix| && path(prefix[i]) == Some(p);
        assert lines[i] == prefix[i];
      }
      if Exists(fs, p) && exists i :: 0 <= i < |lines| && path(lines[i]) == Some(p) {
        var i :| 0 <= i < |lines| && path(lines[i]) == Some(p);
        if i < |prefix| {
          assert path(prefix[i]) == Some(p);
        }
      }
    }
  }

  /** A path is in the playlist exactly when it exists and some song line
      stands for it. */
  lemma PlaylistPathsExactly(lines: seq<string>, dir: string, fs: FileSystem, p: string)
    ensures p in PlaylistPaths(lines, dir, fs) <==>
      Exists(fs, p) && exists i :: 0 <= i < |lines| && SongPath(lines[i], dir, fs.cwd) == Some(p)
  {
    KeptExactly(lines, line => SongPath(line, dir, fs.cwd), fs, p);
  }

  lemma {:induction false} KeptSkips(before: seq<string>, line: string, after: seq<string>, path: string -> Option<string>, fs: FileSystem)
    requires path(line).None?
    ensures Kept(before + [line] + after, path, fs) == Kept(before + after, path, fs)
    decreases |after|
  {
    if after == [] {
      assert (before + [line])[..|before|] == before;
      assert before + [line] + after == before + [line];
      assert before + after == before;
    } else {
      var a := after[..|after| - 1];
      KeptSkips(before, line, a, path, fs);
      assert (before + [line] + after)[..|before + [line] + after| - 1] == before + [line] + a;
      assert (before + after)[..|before + after| - 1] == before + a;
    }
  }

  /** A comment or blank line adds nothing, wherever it stands. */
  lemma SkippedLinesIgnored(before: seq<string>, line: string, after: seq<string>, dir: string, fs: FileSystem)
    requires IsBlank(line) || (|line| > 0 && line[0] == '#')
    ensures PlaylistPaths(before + [line] + after, dir, fs) == PlaylistPaths(before + after, dir, fs)
  {
    KeptSkips(before, line, after, l => SongPath(l, dir, fs.cwd), fs);
  }

  /** An indented '#' is not a comment: the line is taken as a path. */
  lemma IndentedHashNamesSong()
    ensures NamesSong(" #song.mp3")
  {
    assert !IsWhiteSpace(" #song.mp3"[1]);
  }

  /** One more line of the file adds its path when it names an existing
      song. */
  lemma PlaylistPathsStep(ls: seq<string>, i: nat, dir: string, fs: FileSystem)
    requires i < |ls|
    ensures var q := SongPath(ls[i], dir, fs.cwd);
      PlaylistPaths(ls[..i + 1], dir, fs) ==
        if q.Some? && Exists(fs, q.value) then PlaylistPaths(ls[..i], dir, fs) + [q.value]
        else PlaylistPaths(ls[..i], dir, fs)
  {
    assert ls[..i + 1][..i] == ls[..i];
  }

  /** ProcessPlaylistFile. `lines` is None when the file could not be
      read; the new playlist's Id is passed in. */
  method ProcessPlaylistFile(filePath: string, lines: Option<seq<string>>, fs: FileSystem, id: nat)
    returns (r: Option<Playlist>)
    ensures lines.None? ==> r.None?
    ensures lines.Some? ==>
      var dir := DirectoryName(filePath);
      var paths := PlaylistPaths(lines.value, if dir.Some? then dir.value else "", fs);
      && (r.None? <==> paths == [])
      && (r.Some? ==>
            && fresh(r.value)
            && r.value.name == FileNameWithoutExtension(filePath)
            && r.value.filePath == Some(filePath)
            && r.value.kind == File
            && r.value.songFilePaths == paths)
  {
    if lines.None? {
      return None;
    }
    var ls := lines.value;
    var songPaths := [];
    var dirName := DirectoryName(filePath);
    var dir := if dirName.Some? then dirName.value else "";
    var i := 0;
    while i < |ls|
      invariant 0 <= i <= |ls|
      invariant songPaths == PlaylistPaths(ls[..i], dir, fs)
    {
      var line := ls[i];
      PlaylistPathsStep(ls, i, dir, fs);
      if !IsBlank(line) && !(|line| > 0 && line[0] == '#') {
        var songPath := Trim(line);
        if !IsPathRooted(songPath) {
          songPath := FullPath(Combine(dir, songPath), fs.cwd);
        }
        assert SongPath(line, dir, fs.cwd) == Some(songPath);
        if songPath in fs.sizes {
          songPaths := songPaths + [songPath];
        }
      }
      i := i + 1;
    }
    assert ls[..i] == ls;
    if songPaths == [] {
      return None;
    }
    var p := new Playlist(id, FileNameWithoutExtension(filePath), songPaths, File, Some(filePath));
    r := Some(p);
  }
}
