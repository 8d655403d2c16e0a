/** The records the library and the player share: songs, playlists, the
    derived album/artist groups and folder nodes. */
module Models {
  import opened Text
  import opened Wrappers

  /** A track. `FilePath` is its key in the library; `duration` is in seconds. */
  datatype Song = Song(
    filePath: string,
    title: string,
    artist: string,
    album: string,
    duration: real,
    hasArt: bool)

  /** The tag fields the metadata editor reads and writes. */
  datatype SongMetadata = SongMetadata(
    title: string,
    artist: string,
    album: string,
    albumArtists: string,
    genre: string,
    year: nat,
    track: nat,
    disc: nat)

  datatype PlaylistType = Manual | File

  /** A playlist. Manual ones are identified by `id` (a Guid in the
      source); file-backed ones by `filePath`. The object's identity matters:
      synchronisation keeps existing objects and updates their name and song
      list in place. Id, type and file path are only ever set when the
      playlist is created. */
  class Playlist {
    const id: nat
    const kind: PlaylistType
    const filePath: Option<string>
    var name: string
    var songFilePaths: seq<string>

    constructor (id: nat, name: string, songFilePaths: seq<string>, kind: PlaylistType, filePath: Option<string>)
      ensures this.id == id && this.name == name && this.songFilePaths == songFilePaths
      ensures this.kind == kind && this.filePath == filePath
    {
      this.id := id;
      this.name := name;
      this.songFilePaths := songFilePaths;
      this.kind := kind;
      this.filePath := filePath;
    }

    /** !string.IsNullOrEmpty(FilePath): the playlist is file-backed. */
    predicate HasFilePath()
    {
      filePath.Some? && |filePath.value| > 0
    }

    /** The key synchronisation compares, case-insensitively. */
    function Key(): string
    {
      if filePath.Some? then Upper(filePath.value) else ""
    }
  }

  /** An album: the songs sharing an (Album, Artist) pair. */
  datatype AlbumGroup = AlbumGroup(
    title: string,
    artist: string,
    representativeFilePath: Option<string>,
    songCount: nat)

  /** An artist: the songs sharing an Artist value. */
  datatype ArtistGroup = ArtistGroup(
    name: string,
    albumCount: nat,
    songCount: nat,
    representativeFilePath: Option<string>)

  /** A directory in the folder view: its sub-directories and the songs that
      live directly in it. */
  datatype FolderNode = FolderNode(
    name: string,
    path: string,
    children: seq<FolderNode>,
    songs: seq<Song>)
}
