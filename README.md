# Sonorize core in Dafny

Sonorize is a desktop music player. This project models the deterministic core of its
`Sonorize.Core` library and proves properties about it:

- the **play queue** (`QueueController`): the ordered queue, the current index, the shuffle
  deck dealt by Fisher–Yates with its pointer, and the three repeat modes;
- the **library index** (`LibraryService`): the path-keyed song map; the file watcher's add,
  remove and rename events; full and single-folder rescans; and the rebuild of the derived views,
  which are the songs sorted by title, the album and artist groups (`LibraryAggregator`) and the
  folder tree (`FolderTreeBuilder`);
- **file-playlist reconciliation** (`PlaylistSyncOrchestrator`), in full and incremental mode;
- the **scan coordinator** (`LibraryScanCoordinator`) and the requests it sends to the data
  manager;
- **manual playlists** (`PlaylistManager`) and their persistence;
- **search** (`SearchService`);
- the **Last.fm scrobble rule** (`ScrobbleEligibilityService`);
- **theme colours** (`ThemeUtils`): hex parsing, brightness adjustment and highlight choice;
- the **file-to-song and M3U rules** of `MusicLibraryService`.

Modules (one file each):

- `Wrappers`: Option and the Outcome of an operation that can throw.
- `Text`: the string operations the source uses, with ordinal ignore-case comparison.
- `Paths`: the `System.IO.Path` functions, with Unix semantics.
- `Sorting`: a stable sort by key, standing for `OrderBy`.
- `Models`: Song, Playlist and the group records.
- `Audio`, `Aggregation`, `FolderTree`, `PlaylistSync`, `Search`, `Library`,
  `ScanCoordinator`, `PlaylistManagement`, `Scrobbling`, `Theme`, `MusicLibrary`: the
  services.

Code that updates state in place is modelled as classes:

- `QueueController`, whose shuffle deck is an `array` shuffled in place;
- `LibraryService`;
- `PlaylistManager`;
- the scan coordinator;
- the playlist list.

The rest is functions over values, and loops in the source are methods with invariants proved
against those functions.

The outside world is passed in as parameters:

- random draws, as a sequence of numbers;
- which files and directories exist, and file sizes;
- the lines of a playlist file;
- what the tag reader returns;
- the result of a folder scan;
- the process's current directory.

## Model

| member | source | states |
|---|---|---|
| Audio.NextRepeat | Sonorize.Core/Services/Audio/QueueController.cs:94-101 | The next repeat mode always differs from the current one. |
| Audio.RepeatCycle | Sonorize.Core/Services/Audio/QueueController.cs:94-101 | ToggleRepeat cycles None → All → One → None: three toggles return to the start, and two never do. |
| Audio.Clamp | Sonorize.Core/Services/Audio/QueueController.cs:49 | Math.Clamp's result lies in [lo, hi] and is x itself when x is already in range. |
| Audio.ShuffledPermutes | Sonorize.Core/Services/Audio/QueueController.cs:246-253 | The in-place swaps of the Fisher–Yates loop keep the deck's multiset, whatever the draws. |
| Audio.FisherYatesPermutes | Sonorize.Core/Services/Audio/QueueController.cs:244-254 | The rebuilt deck is a permutation of 0..Count-1 for every sequence of draws. |
| Audio.PermutationOfRangeFacts | Sonorize.Core/Services/Audio/QueueController.cs:244-254 | A deck that is a permutation of 0..n-1 has length n, holds only queue indices, holds each index, and holds none twice. |
| Audio.SyncFindsCurrent | Sonorize.Core/Services/Audio/QueueController.cs:256-275 | After SyncShufflePointer on a non-empty deck, the deck pointer holds the current index and the current index is a queue position. A current index that was already valid is kept. |
| Audio.Step | Sonorize.Core/Services/Audio/QueueController.cs:190-242 | One advance or regress succeeds only onto a valid position. A failed move leaves the position unchanged. |
| Audio.StepRoundTrip | Sonorize.Core/Services/Audio/QueueController.cs:190-212 | A manual Next followed by Previous returns to the same position, and so does Previous followed by Next. This holds with wrap-around at both ends. |
| Audio.AutoAdvancesWithoutRepeat | Sonorize.Core/Services/Audio/QueueController.cs:194-210 | With repeat off, k automatic advances that stay inside the queue succeed and move k positions. |
| Audio.PlaysEachPositionOnce | Sonorize.Core/Services/Audio/QueueController.cs:194-201 | With repeat off, auto-advance from "no song" plays positions 0..Count-1 in order, then stops on the last one. |
| Audio.AutoAdvancesStopAtEnd | Sonorize.Core/Services/Audio/QueueController.cs:194-201 | With repeat off, an automatic advance from the last position fails and stays there. |
| Audio.ShufflePlaysEverySongOnce | Sonorize.Core/Services/Audio/QueueController.cs:214-254 | In shuffle mode, one auto-advanced pass over the deck visits each queue index exactly once before stopping. |
| Audio.RepeatAllNeverStops | Sonorize.Core/Services/Audio/QueueController.cs:194-228 | With repeat all, automatic advances never fail. |
| Audio.MovedPermutes | Sonorize.Core/Services/Audio/QueueController.cs:162-164 | Reorder keeps the queue's length and multiset, and puts the moved song at its new index. |
| Audio.MovedIndexFollowsSong | Sonorize.Core/Services/Audio/QueueController.cs:166-177 | After Reorder the current index is a valid position and still names the song that was current. |
| Audio.RemovedIndexFollowsSong | Sonorize.Core/Services/Audio/QueueController.cs:133-149 | Removing another song keeps the current song current. Removing the current song moves to the song after it, or to 0 when it was last. The index stays in range. |
| Audio.FindByPath | Sonorize.Core/Services/Audio/QueueController.cs:56 | FindIndex returns the first position whose song has the path, or -1 when there is none. |
| Audio.QueueController.CurrentSong | Sonorize.Core/Services/Audio/QueueController.cs:17-19 | CurrentSong is present exactly when the index is a queue position, and it is that song. |
| Audio.QueueController.RebuildShuffleDeck | Sonorize.Core/Services/Audio/QueueController.cs:244-254 | The in-place loop deals exactly the Fisher–Yates deck, which is a permutation of the queue's indices. Nothing else changes. |
| Audio.QueueController.SwapCards | Sonorize.Core/Services/Audio/QueueController.cs:252 | The tuple assignment exchanges the two cards in place. Every other card stays where it was. |
| Audio.QueueController.SyncShufflePointer | Sonorize.Core/Services/Audio/QueueController.cs:256-275 | In shuffle mode the pointer is set to the current index's card, or reset to card 0 when the index is not in the deck. Outside shuffle mode nothing changes. The queue invariant is restored. |
| Audio.QueueController.SetContext | Sonorize.Core/Services/Audio/QueueController.cs:24-45 | The queue is replaced and a new deck is dealt in shuffle mode. The index is reset to -1 unless keepCurrent, in which case only the pointer sync happens. |
| Audio.QueueController.SetIndex | Sonorize.Core/Services/Audio/QueueController.cs:47-52 | The index becomes Clamp(index, -1, Count-1), then the pointer is synced. The index always ends in [-1, Count-1]. |
| Audio.QueueController.SetIndexBySong | Sonorize.Core/Services/Audio/QueueController.cs:54-58 | The first queued song with the same file path becomes current. With none, the index is -1 in linear mode. |
| Audio.QueueController.AdvanceLinear | Sonorize.Core/Services/Audio/QueueController.cs:190-212 | The result and the new index are Step over queue positions. |
| Audio.QueueController.AdvanceShuffle | Sonorize.Core/Services/Audio/QueueController.cs:214-242 | The result and the new pointer are Step over deck positions, and the index becomes the card under the pointer. |
| Audio.QueueController.TryAdvance | Sonorize.Core/Services/Audio/QueueController.cs:60-74 | An empty queue refuses and nothing changes. Repeat One with auto-advance succeeds without moving. Otherwise it is the linear or shuffle step forward. |
| Audio.QueueController.TryRegress | Sonorize.Core/Services/Audio/QueueController.cs:76-79 | An empty queue refuses. Otherwise it is the linear or shuffle step backward, which wraps from the first position to the last. |
| Audio.QueueController.ToggleShuffle | Sonorize.Core/Services/Audio/QueueController.cs:83-92 | Shuffle flips. Turning it on deals a new deck and syncs the pointer, and a valid current song stays current. |
| Audio.QueueController.ToggleRepeat | Sonorize.Core/Services/Audio/QueueController.cs:94-103 | The repeat mode advances one step of the cycle, and nothing else changes. |
| Audio.QueueController.SetModes | Sonorize.Core/Services/Audio/QueueController.cs:105-114 | Both modes are set, and shuffle on always deals a new deck and syncs. |
| Audio.QueueController.Remove | Sonorize.Core/Services/Audio/QueueController.cs:118-153 | An index outside the queue changes nothing. Otherwise the song is removed and the index follows RemovedIndex: -1 when the queue is empty, wrap to 0, or one less when the removed song was before it. In shuffle mode the deck is re-dealt and synced. |
| Audio.QueueController.Reorder | Sonorize.Core/Services/Audio/QueueController.cs:155-186 | Equal indices change nothing. Otherwise the song moves and the index follows it (MovedIndex), and in shuffle mode the deck is re-dealt and synced. |
| Aggregation.KeysOf | Sonorize.Core/Services/Library/LibraryAggregator.cs:14-38 | GroupBy's keys: each song's key appears, every key comes from a song, and no key appears twice. |
| Aggregation.WhereContents | Sonorize.Core/Services/Library/LibraryAggregator.cs:14-38 | A group holds exactly the library's songs with its key, with their multiplicity. |
| Aggregation.Representative | Sonorize.Core/Services/Library/LibraryAggregator.cs:22-35 | The cover is the first song with art, else the first song, and is absent only for an empty group. |
| Aggregation.GroupSizesAddUp | Sonorize.Core/Services/Library/LibraryAggregator.cs:14-20 | Every song lands in exactly one group, so the group sizes add up to the number of songs. |
| Aggregation.AlbumCountIsDistinctAlbums | Sonorize.Core/Services/Library/LibraryAggregator.cs:34 | Distinct().Count() over a group's album titles is the number of different titles. |
| Aggregation.AlbumsOrdered | Sonorize.Core/Services/Library/LibraryAggregator.cs:14-25 | The album view is sorted by title ignoring case and holds one album per distinct (Album, Artist) pair. |
| Aggregation.AlbumsCoverSongs | Sonorize.Core/Services/Library/LibraryAggregator.cs:14-25 | Every song's (Album, Artist) pair has an album entry. |
| Aggregation.AlbumsContent | Sonorize.Core/Services/Library/LibraryAggregator.cs:16-23 | Each album's SongCount is the (positive) number of songs with its pair, and its cover is that group's representative. |
| Aggregation.AlbumsCountAllSongs | Sonorize.Core/Services/Library/LibraryAggregator.cs:14-25 | The album SongCounts add up to the number of songs. |
| Aggregation.ArtistsOrdered | Sonorize.Core/Services/Library/LibraryAggregator.cs:28-38 | The artist view is sorted by name ignoring case and holds one artist per distinct Artist value. |
| Aggregation.ArtistsCoverSongs | Sonorize.Core/Services/Library/LibraryAggregator.cs:28-38 | Every song's artist has an entry. |
| Aggregation.ArtistsContent | Sonorize.Core/Services/Library/LibraryAggregator.cs:30-36 | Each artist's SongCount is their (positive) number of songs, AlbumCount is the number of distinct album titles among them, and the cover is the group's representative. |
| Aggregation.ArtistsCountAllSongs | Sonorize.Core/Services/Library/LibraryAggregator.cs:28-38 | The artist SongCounts add up to the number of songs. |
| Aggregation.SampleAlbums | Sonorize.Core.Tests/LibraryAggregationTests.cs:104-114 | The five sample songs give four albums. "Album 1" by Artist A has two songs with the art song as its cover, and "Album 1" by Artist B is a separate album. |
| Aggregation.SampleArtists | Sonorize.Core.Tests/LibraryAggregationTests.cs:115-122 | The sample gives three artists, and Artist A has three songs on two albums. |
| FolderTree.ExistingFolders | Sonorize.Core/Services/Library/FolderTreeBuilder.cs:39-40 | A configured folder is kept exactly when it exists. |
| FolderTree.CreateRootNodes | Sonorize.Core/Services/Library/FolderTreeBuilder.cs:37-42 | There is one empty root per existing configured folder, in configured order, with the folder as its path and its file name as its name. |
| FolderTree.ChildIndex | Sonorize.Core/Services/Library/FolderTreeBuilder.cs:75 | The index is that of the first child whose name equals the segment ignoring case, or -1. |
| FolderTree.GetOrCreateChild | Sonorize.Core/Services/Library/FolderTreeBuilder.cs:73-86 | An existing child is reused and the parent is unchanged. Otherwise a new empty child, named by the segment with the combined path, is appended. |
| FolderTree.RootFor | Sonorize.Core/Services/Library/FolderTreeBuilder.cs:53 | The root found is the first one whose path is a case-insensitive prefix of the directory. |
| FolderTree.ProcessSong | Sonorize.Core/Services/Library/FolderTreeBuilder.cs:44-71 | A song with a target goes under the first root whose path prefixes its directory ignoring case: following its remaining directory names from that root reaches a node holding it. Every other root is unchanged, and every root keeps its name and path. |
| FolderTree.SortNode | Sonorize.Core/Services/Library/FolderTreeBuilder.cs:88-97 | Sorting keeps the node's name and path. |
| FolderTree.Kept | Sonorize.Core/Services/Library/FolderTreeBuilder.cs:24-58 | Build attaches only a sub-multiset of the songs: never a demo song and never one without a matching root. |
| FolderTree.AddSongAddsOne | Sonorize.Core/Services/Library/FolderTreeBuilder.cs:60-70 | Walking the segments and attaching the song adds exactly that song to the subtree. |
| FolderTree.GetOrCreateChildFinds | Sonorize.Core/Services/Library/FolderTreeBuilder.cs:73-86 | The child returned is the one a later lookup of the segment finds. |
| FolderTree.AddSongThenFind | Sonorize.Core/Services/Library/FolderTreeBuilder.cs:63-70 | After attaching, following the same segments reaches a node that holds the song. |
| FolderTree.AddSongKeepsWellFormed | Sonorize.Core/Services/Library/FolderTreeBuilder.cs:73-86 | Attaching a song never creates two siblings whose names are equal ignoring case. |
| FolderTree.ProcessSongCounts | Sonorize.Core/Services/Library/FolderTreeBuilder.cs:44-71 | A song with a target root is added to the forest exactly once. A song without one (no directory, or no matching root) leaves the forest unchanged. |
| FolderTree.ProcessSongKeepsWellFormed | Sonorize.Core/Services/Library/FolderTreeBuilder.cs:44-86 | Processing a song keeps every root free of same-named siblings. |
| FolderTree.SortNodeFacts | Sonorize.Core/Services/Library/FolderTreeBuilder.cs:88-97 | SortNode sorts children by name and songs by title at every level, and keeps exactly the same songs. |
| FolderTree.SortNodeKeepsWellFormed | Sonorize.Core/Services/Library/FolderTreeBuilder.cs:88-97 | Sorting keeps sibling names distinct. |
| FolderTree.SortRootsFacts | Sonorize.Core/Services/Library/FolderTreeBuilder.cs:29-34 | After sorting, the roots are ordered by name and every level is sorted, with the same songs and no same-named siblings. |
| FolderTree.KeptWithoutRoots | Sonorize.Core/Services/Library/FolderTreeBuilder.cs:17-22 | With no existing roots, no song is kept. |
| FolderTree.ChildIndexSameNames | Sonorize.Core/Services/Library/FolderTreeBuilder.cs:75 | The lookup depends only on the children's names: a lookup that succeeds is unchanged by appending a child or by replacing one with a same-named node. |
| FolderTree.AddSongKeepsHolds | Sonorize.Core/Services/Library/FolderTreeBuilder.cs:60-86 | Attaching a song moves no song already in the subtree: the segments that reached it still do, because children are only appended or reused. |
| FolderTree.ProcessSongKeepsHolds | Sonorize.Core/Services/Library/FolderTreeBuilder.cs:44-71 | Processing a later song leaves every song already placed in any root where it was. |
| FolderTree.SortNodeKeepsHolds | Sonorize.Core/Services/Library/FolderTreeBuilder.cs:88-97 | In a tree without same-named siblings, sorting moves no song: the same segments reach it after sorting. |
| FolderTree.SortRootsKeepsPlaced | Sonorize.Core/Services/Library/FolderTreeBuilder.cs:29-34 | After the roots are sorted, each placed song is still reached by its segments, under a root with the path its target names. |
| FolderTree.SortRootsKeepsRoots | Sonorize.Core/Services/Library/FolderTreeBuilder.cs:29-34 | Ordering the roots keeps the same multiset of root paths, and each root stays named after its path. |
| FolderTree.Planted | Sonorize.Core/Services/Library/FolderTreeBuilder.cs:24-27 | The song loop never changes a root's name or path. |
| FolderTree.PlantedSongs | Sonorize.Core/Services/Library/FolderTreeBuilder.cs:24-27 | The song loop attaches each kept song once and nothing else, and never creates same-named siblings. |
| FolderTree.PlantedPlaces | Sonorize.Core/Services/Library/FolderTreeBuilder.cs:24-71 | After the song loop, every kept song sits under the first root whose path prefixes its directory, at the node its remaining directory names reach. |
| FolderTree.BuildTreeFacts | Sonorize.Core/Services/Library/FolderTreeBuilder.cs:15-71 | With no existing folder the tree is empty. Otherwise: one root per existing folder, named after it; every kept song, and no other, under the first root whose path prefixes its directory, at the node its remaining directory names reach; every level sorted; the roots ordered by name. |
| FolderTree.Build | Sonorize.Core/Services/Library/FolderTreeBuilder.cs:15-35 | The song loop over the fresh roots and the sorting return BuildTree, whose roots, placement and order BuildTreeFacts states. With a case-sensitive demo test the same method is LibraryService.BuildFolderTree (Sonorize.Core/Services/Library/LibraryService.cs:220-291). |
| PlaylistSync.KeyMap | Sonorize.Core/Services/Library/PlaylistSyncOrchestrator.cs:18-20 | ToDictionary succeeds exactly when no two file-backed playlists share a path ignoring case. It then maps each path key to its playlist; otherwise it fails with the duplicate key. |
| PlaylistSync.LastMatch | Sonorize.Core/Services/Library/PlaylistSyncOrchestrator.cs:24-30 | The last found entry with a key is a file-backed found playlist with that key, and is absent when there is none. |
| PlaylistSync.UpdatePlaylist | Sonorize.Core/Services/Library/PlaylistSyncOrchestrator.cs:64-68 | The target takes the source's name and song list. |
| PlaylistSync.PerformFullSync | Sonorize.Core/Services/Library/PlaylistSyncOrchestrator.cs:16-38 | A key clash throws and nothing changes. Otherwise the new list has one entry per file-backed found playlist, in found order, with the existing object where the path matches. Each existing playlist is refreshed from the last matching found one. |
| PlaylistSync.FullSyncStep | Sonorize.Core/Services/Library/PlaylistSyncOrchestrator.cs:24-35 | One pass of the loop extends the new list as one more found playlist extends the selection. Every existing playlist stays refreshed against the found playlists seen so far. |
| PlaylistSync.PerformIncrementalSync | Sonorize.Core/Services/Library/PlaylistSyncOrchestrator.cs:40-62 | The existing list is kept in order and in place, the unmatched file-backed found playlists are appended, and the same list object is returned. Matched playlists are refreshed. |
| PlaylistSync.Sync | Sonorize.Core/Services/Library/PlaylistSyncOrchestrator.cs:9-14 | Full mode leaves the caller's list untouched and returns the selected list. Incremental mode appends in place. In both modes every existing playlist is refreshed from its last match on success, and on a key clash the list and every playlist stay as they were. |
| PlaylistSync.SelectedEntries | Sonorize.Core/Services/Library/PlaylistSyncOrchestrator.cs:22-37 | A full sync's result has exactly one entry per file-backed found playlist, in found order. |
| PlaylistSync.SelectedKeepsExactlyMatched | Sonorize.Core/Services/Library/PlaylistSyncOrchestrator.cs:16-38 | An existing playlist survives a full sync exactly when some file-backed found playlist has its path ignoring case. The others are dropped. |
| PlaylistSync.UnmatchedExactly | Sonorize.Core/Services/Library/PlaylistSyncOrchestrator.cs:48-58 | Incremental sync appends exactly the file-backed found playlists whose path is not already present. |
| PlaylistSync.SelectedFileBacked | Sonorize.Core/Services/Library/PlaylistSyncOrchestrator.cs:24 | A full sync leaves only file-backed playlists. |
| Search.Tokens | Sonorize.Core/Services/Library/SearchService.cs:16 | Every token is non-empty and not blank. |
| Search.Filter | Sonorize.Core/Services/Library/SearchService.cs:20-25 | A song is in the result exactly when it is in the source and matches every token. |
| Search.SearchSongs | Sonorize.Core/Services/Library/SearchService.cs:7-26 | A blank query returns the whole source. Any other query returns the token filter. |
| Search.FilterIsSubsequence | Sonorize.Core/Services/Library/SearchService.cs:20-25 | The result keeps the source order. |
| Search.FilterCounts | Sonorize.Core/Services/Library/SearchService.cs:20-25 | A matching song appears as often as in the source, and a non-matching one not at all. |
| Search.NonBlankQueryHasTokens | Sonorize.Core/Services/Library/SearchService.cs:16-19 | A non-blank query always has a token, so the "no tokens" branch is never taken. |
| Search.SearchSpec | Sonorize.Core/Services/Library/SearchService.cs:7-26 | The search is an order-preserving subsequence of the source. It holds exactly the matching songs with their multiplicity, or everything for a blank query. |
| Search.SampleSearchAlpha | Sonorize.Core.Tests/LibraryServiceTests.cs:127-138 | Query "Alpha" over the four sample songs returns exactly "Alpha Track" and "Another Alpha", in order. |
| Library.Upsert | Sonorize.Core/Services/Library/LibraryService.cs:162-166 | After the upserts the keys are the old keys plus every scanned path. |
| Library.UpsertValue | Sonorize.Core/Services/Library/LibraryService.cs:162-166 | A scanned path holds the last song scanned with it, and any other key keeps its old song. |
| Library.Pruned | Sonorize.Core/Services/Library/LibraryService.cs:168-175 | A key survives pruning exactly when it is a demo key or was found ignoring case, with its song unchanged. |
| Library.Rescanned | Sonorize.Core/Services/Library/LibraryService.cs:156-175 | After a full rescan every scanned song's path is a key and demo keys survive. Every other key was found. |
| Library.RescannedHoldsScanned | Sonorize.Core/Services/Library/LibraryService.cs:160-166 | After a full rescan each scanned song's path holds the last song scanned with that path. |
| Library.FileAdded | Sonorize.Core/Services/Library/LibraryService.cs:88-103 | A known path, or a file without a song, changes nothing. Otherwise the new song is added under its path, and every other key is untouched. |
| Library.FileRemoved | Sonorize.Core/Services/Library/LibraryService.cs:105-111 | Only that key goes. |
| Library.FileRenamed | Sonorize.Core/Services/Library/LibraryService.cs:113-125 | A known old path is removed and its song, with the new path, goes under the new key unless that key is taken. An unknown old path is handled as an add of the new path. Other keys are untouched. |
| Library.WithMetadata | Sonorize.Core/Services/Library/LibraryService.cs:381-383 | Only Title, Artist and Album change. |
| Library.EnumerateValues | Sonorize.Core/Services/Library/LibraryService.cs:202 | Values.ToList() lists each value once, in some enumeration of the keys. |
| Library.ComputeViews | Sonorize.Core/Services/Library/LibraryService.cs:202-209 | The rebuilt views are: the values in enumeration order; those songs sorted by title as a permutation; the aggregator's albums and artists; and the folder tree BuildTree gives for those songs with the case-sensitive demo test, so every kept song sits under its root at the node its directory names reach. |
| Library.LibraryService.GetSong | Sonorize.Core/Services/Library/LibraryService.cs:63-66 | A song is found exactly when the path is a key, and it is that key's song. |
| Library.LibraryService.OnFileAdded | Sonorize.Core/Services/Library/LibraryService.cs:88-103 | The map becomes FileAdded, and a rebuild is requested only when a song was added. |
| Library.LibraryService.OnFileRemoved | Sonorize.Core/Services/Library/LibraryService.cs:105-111 | The map becomes FileRemoved, and a rebuild is requested only when a key was removed. |
| Library.LibraryService.OnFileRenamed | Sonorize.Core/Services/Library/LibraryService.cs:113-125 | The map becomes FileRenamed, and a rebuild is requested on a move or an add. |
| Library.LibraryService.UpsertScanned | Sonorize.Core/Services/Library/LibraryService.cs:160-166 | The loop leaves the map equal to Upsert and builds the case-insensitive found set. The views and the pending-rebuild flag are untouched. |
| Library.LibraryService.PruneMissing | Sonorize.Core/Services/Library/LibraryService.cs:168-175 | The loop over a snapshot of the keys leaves the map equal to Pruned. The views and the pending-rebuild flag are untouched. |
| Library.LibraryService.RebuildAggregates | Sonorize.Core/Services/Library/LibraryService.cs:198-218 | AllSongs, AllAlbums, AllArtists and FolderRootNodes are the views computed from the current map, with FolderRootNodes exactly BuildTree of the enumerated songs. The pending rebuild is cleared. |
| Library.LibraryService.SyncFilePlaylists | Sonorize.Core/Services/Library/LibraryService.cs:293-318 | A key clash throws and nothing changes. Otherwise FilePlaylists becomes the full-sync selection and the matched playlists are refreshed. The map, the views and the pending-rebuild flag are untouched either way. |
| Library.LibraryService.UpdateFilePlaylistsIncremental | Sonorize.Core/Services/Library/LibraryService.cs:320-349 | FilePlaylists becomes the old list plus the unmatched file-backed found playlists, and the matched ones are refreshed. On a key clash nothing changes. The map, the views and the pending-rebuild flag are untouched either way. |
| Library.LibraryService.PublishViews | Sonorize.Core/Services/Library/LibraryService.cs:206-209 | The four public views (and the enumeration behind them) become exactly the values handed in. The map and the folder settings are untouched, and the pending rebuild is cleared. |
| Library.LibraryService.RescanLibraryFull | Sonorize.Core/Services/Library/LibraryService.cs:156-180 | The map becomes Rescanned: scanned songs are upserted, and non-demo keys that were not found are removed. The playlists are fully synced, with every existing playlist refreshed from its last match, and the views rebuilt from the new map, which clears the pending rebuild. On a playlist clash the exception stops the rebuild: the list, every playlist, the four views and the pending-rebuild flag stay as they were. |
| Library.LibraryService.ScanFolder | Sonorize.Core/Services/Library/LibraryService.cs:182-196 | The map only gains or overwrites keys. The playlists are synced incrementally, with matched ones refreshed, and the views rebuilt, which clears the pending rebuild. On a playlist clash the exception stops the rebuild: the list, every playlist, the four views and the pending-rebuild flag stay as they were. |
| Library.LibraryService.UpdateSongMetadata | Sonorize.Core/Services/Library/LibraryService.cs:376-387 | Title, Artist and Album change, and a rebuild is requested, only when the tag writer reports success. The result is that verdict. |
| Library.LibraryService.SearchSongs | Sonorize.Core/Services/Library/LibraryService.cs:389-392 | Search runs over AllSongs: a blank query returns AllSongs; otherwise a song is in the result exactly when it is in AllSongs and matches every token. |
| ScanCoordinator.Adds | Sonorize.Core/Services/Library/LibraryScanCoordinator.cs:45-48 | There is one AddOrUpdateSong per scanned song, in scan order. |
| ScanCoordinator.RemovalsExactly | Sonorize.Core/Services/Library/LibraryScanCoordinator.cs:58-70 | Removal is requested for exactly the non-demo library songs whose path was not found, ignoring case. |
| ScanCoordinator.ProcessedOrder | Sonorize.Core/Services/Library/LibraryScanCoordinator.cs:43-56 | All adds come first. There are no removals without cleanup. The last request is the playlist update, incremental exactly when there is no cleanup. |
| ScanCoordinator.ProcessedKeepsFound | Sonorize.Core/Services/Library/LibraryScanCoordinator.cs:50-70 | A cleaning scan never asks to remove a path it found itself. |
| ScanCoordinator.PerRoot | Sonorize.Core/Services/Library/LibraryScanCoordinator.cs:23-29 | After the per-root loop the last request is the last root's full playlist sync. |
| ScanCoordinator.Merged | Sonorize.Core/Services/Library/LibraryScanCoordinator.cs:23-29 | The merged scan holds exactly the songs some root's scan found. |
| ScanCoordinator.PerRootRemovesFoundSong | Sonorize.Core/Services/Library/LibraryScanCoordinator.cs:23-41 | With roots "/a" and "/b", the per-root cleanup of "/a" asks to remove "/b/x.mp3" although the scan of "/b" finds it. |
| ScanCoordinator.AllRootsRemovals | Sonorize.Core/Services/Library/LibraryScanCoordinator.cs:58-70 | When every root is scanned before one cleanup, removal is requested exactly for non-demo library songs that no root found. |
| ScanCoordinator.Coordinator.RemoveMissingSongs | Sonorize.Core/Services/Library/LibraryScanCoordinator.cs:58-70 | The loop appends exactly the Removals requests. |
| ScanCoordinator.Coordinator.ProcessScanResults | Sonorize.Core/Services/Library/LibraryScanCoordinator.cs:43-56 | The adds, then the removals on cleanup, then the playlist update are appended. |
| ScanCoordinator.Coordinator.ScanSingleFolder | Sonorize.Core/Services/Library/LibraryScanCoordinator.cs:31-35 | A single-folder scan is processed without cleanup. |
| ScanCoordinator.Coordinator.ScanAllFoldersPerRoot | Sonorize.Core/Services/Library/LibraryScanCoordinator.cs:23-41 | As written: each root is scanned and processed with cleanup in turn. |
| ScanCoordinator.Coordinator.ScanAllFolders | Sonorize.Core/Services/Library/LibraryScanCoordinator.cs:23-29 | Corrected: every root is scanned, then the merged result is processed once with cleanup. |
| PlaylistManagement.RemoveFirst | Sonorize.Core/Services/Library/PlaylistManager.cs:50 | List.Remove drops one occurrence of a present playlist and leaves an absent one's list unchanged. |
| PlaylistManagement.RemoveFirstOnce | Sonorize.Core/Services/Library/PlaylistManager.cs:50 | In a list without repeats, the removed playlist is gone and the rest stay distinct. |
| PlaylistManagement.WithPathFacts | Sonorize.Core/Services/Library/PlaylistManager.cs:60-62 | Adding a path keeps the old paths in order and makes the path present. It adds at most one entry, creates no duplicate and is idempotent. |
| PlaylistManagement.PlaylistManager.CreatePlaylist | Sonorize.Core/Services/Library/PlaylistManager.cs:21-35 | A new empty Manual playlist with the name and Id is appended, stored and announced. |
| PlaylistManagement.PlaylistManager.SavePlaylist | Sonorize.Core/Services/Library/PlaylistManager.cs:37-44 | Only a Manual playlist is stored and announced. A file playlist changes nothing. |
| PlaylistManagement.PlaylistManager.DeletePlaylist | Sonorize.Core/Services/Library/PlaylistManager.cs:46-56 | Only a listed Manual playlist is removed, from the list and from storage. Otherwise nothing changes. Because every listed playlist is manual, a listed playlist is always removed once. |
| PlaylistManagement.PlaylistManager.AddSongToPlaylist | Sonorize.Core/Services/Library/PlaylistManager.cs:58-65 | A Manual playlist lacking the path gets it appended and is saved. Anything else is left alone. |
| Scrobbling.ShouldScrobble | Sonorize.Core/Services/Scrobbling/ScrobbleEligibilityService.cs:10-25 | No song, or one of 30 s or less, never scrobbles. Otherwise a play scrobbles exactly when it reaches the percentage of the length or the absolute threshold. |
| Scrobbling.ScrobbleMonotone | Sonorize.Core/Services/Scrobbling/ScrobbleEligibilityService.cs:24 | Playing longer never turns a scrobble into a non-scrobble. |
| Scrobbling.FullPlayScrobbles | Sonorize.Core/Services/Scrobbling/ScrobbleEligibilityService.cs:18-24 | A song over 30 s played to its end scrobbles whenever the percentage is at most 100. |
| Scrobbling.DefaultScenarios | Sonorize.Core.Tests/Services/ScrobbleEligibilityServiceTests.cs:23-98 | Under 50 % and 240 s: a 29 s song does not scrobble; 200 s played 101 s does and 90 s does not; 600 s played 250 s does and 200 s does not. |
| Scrobbling.CustomPercentageScenario | Sonorize.Core.Tests/Services/ScrobbleEligibilityServiceTests.cs:100-113 | A 90 % threshold is not met by 85 s of a 100 s song. |
| Theme.HexNumber | Sonorize.Core/Services/UI/ThemeUtils.cs:147 | The value of n hex digits is below 16^n. |
| Theme.ParseHex | Sonorize.Core/Services/UI/ThemeUtils.cs:147 | A parsed value is below 16^length. |
| Theme.ExpandShort | Sonorize.Core/Services/UI/ThemeUtils.cs:142-145 | Three digits become six, each digit doubled. |
| Theme.Channels | Sonorize.Core/Services/UI/ThemeUtils.cs:152-154 | The shifted and masked channels are each in 0..255. |
| Theme.TryGetRgb | Sonorize.Core/Services/UI/ThemeUtils.cs:133-156 | Success requires a non-empty input whose rest after the leading '#'s has 3 or 6 characters. Success gives channels in 0..255 that recombine to the parsed value. |
| Theme.ChannelsRecombine | Sonorize.Core/Services/UI/ThemeUtils.cs:152-154 | r·65536 + g·256 + b gives back any 24-bit value. |
| Theme.Format | Sonorize.Core/Services/UI/ThemeUtils.cs:130 | The format is "#" followed by six upper-case hex digits. |
| Theme.FormatParses | Sonorize.Core/Services/UI/ThemeUtils.cs:130-156 | What the "#RRGGBB" format writes, TryGetRgb reads back. |
| Theme.HashesIgnored | Sonorize.Core/Services/UI/ThemeUtils.cs:141 | Any number of leading '#' characters is ignored. |
| Theme.SixDigitsAccepted | Sonorize.Core/Services/UI/ThemeUtils.cs:147-155 | Six hex digits are read as their value. |
| Theme.ThreeDigitsDoubled | Sonorize.Core/Services/UI/ThemeUtils.cs:142-155 | Three hex digits are read as the six with each digit doubled. |
| Theme.OtherLengthsRefused | Sonorize.Core/Services/UI/ThemeUtils.cs:147-150 | Any other length after the '#'s is refused. |
| Theme.SurroundingWhiteAccepted | Sonorize.Core/Services/UI/ThemeUtils.cs:147 | HexNumber parsing allows surrounding white space, so a space followed by five hex digits is accepted. |
| Theme.Truncate | Sonorize.Core/Services/UI/ThemeUtils.cs:119-127 | The (int) cast truncates toward zero. |
| Theme.Clamp | Sonorize.Core/Services/UI/ThemeUtils.cs:130 | Math.Clamp(v, 0, 255) is in 0..255 and keeps in-range values. |
| Theme.Adjusted | Sonorize.Core/Services/UI/ThemeUtils.cs:116-130 | The adjusted, clamped channels are in range. |
| Theme.BrightnessAdjusted | Sonorize.Core/Services/UI/ThemeUtils.cs:109-131 | The result is always "#" followed by six upper-case hex digits. |
| Theme.AdjustBrightness | Sonorize.Core/Services/UI/ThemeUtils.cs:109-131 | The step-by-step computation yields BrightnessAdjusted. |
| Theme.AdjustChannels | Sonorize.Core/Services/UI/ThemeUtils.cs:116-130 | The three channel updates and the clamp give Adjusted. |
| Theme.AdjustChannel | Sonorize.Core/Services/UI/ThemeUtils.cs:116-127 | A negative factor becomes 1 + factor and scales toward black. Any other factor moves toward white. |
| Theme.Lighten | Sonorize.Core/Services/UI/ThemeUtils.cs:9-12 | Lighten is AdjustBrightness with the factor. |
| Theme.Darken | Sonorize.Core/Services/UI/ThemeUtils.cs:14-17 | Darken calls AdjustBrightness with the negated factor. |
| Theme.AdjustBrightnessParses | Sonorize.Core/Services/UI/ThemeUtils.cs:109-131 | The adjusted colour reads back as the clamped adjusted channels, and an unreadable input reads back as black. |
| Theme.LightenDarkenDirection | Sonorize.Core/Services/UI/ThemeUtils.cs:116-128 | For a factor in [0, 1], lightening never lowers a channel and darkening never raises one. |
| Theme.LightenScenario | Sonorize.Core.Tests/ThemeUtilsTests.cs:56-70 | Lightening #101010 by 0.5 gives #878787. |
| Theme.HexToRgba | Sonorize.Core/Services/UI/ThemeUtils.cs:102-107 | The printed channels are the parsed ones, or black for an unreadable colour. |
| Theme.HexToRgbaRed | Sonorize.Core.Tests/ThemeUtilsTests.cs:8 | "#FF0000" gives 255, 0, 0. |
| Theme.HexToRgbaGreen | Sonorize.Core.Tests/ThemeUtilsTests.cs:9 | "#00FF00" gives 0, 255, 0. |
| Theme.HexToRgbaWithoutHash | Sonorize.Core.Tests/ThemeUtilsTests.cs:10 | "0000FF" without '#' gives 0, 0, 255. |
| Theme.HexToRgbaShort | Sonorize.Core.Tests/ThemeUtilsTests.cs:11 | "#FFF" gives 255, 255, 255. |
| Theme.HexToRgbaInvalid | Sonorize.Core.Tests/ThemeUtilsTests.cs:21-29 | "INVALID" gives 0, 0, 0. |
| Theme.GetSmartHighlightBase | Sonorize.Core/Services/UI/ThemeUtils.cs:87-100 | At opacity 0.5 or less the colour is returned unchanged. Above it the result is black or white, and white exactly for a readable colour whose luminance is at most 128. |
| Theme.GreyHighlight | Sonorize.Core/Services/UI/ThemeUtils.cs:94-97 | On a grey, a strong highlight is white exactly for levels up to 128. |
| Theme.HighlightOverBlack | Sonorize.Core.Tests/ThemeUtilsTests.cs:31-44 | Black at 0.8 gives white. |
| Theme.HighlightOverWhite | Sonorize.Core.Tests/ThemeUtilsTests.cs:46-54 | White at 0.8 gives black. |
| MusicLibrary.IsFileValid | Sonorize.Core/Services/Library/MusicLibraryService.cs:155-171 | A file is valid exactly when its path is not blank, it exists and it is not empty. |
| MusicLibrary.GetSongTitle | Sonorize.Core/Services/Library/MusicLibraryService.cs:247-252 | The title is the tag title unless it is missing or blank, in which case it is the file name without its extension. |
| MusicLibrary.CreateSongFromPath | Sonorize.Core/Services/Library/MusicLibraryService.cs:254-265 | The fallback song has the file stem as title, "Unknown Artist", "Unknown Album", zero duration and no art. |
| MusicLibrary.CreateSongFromTags | Sonorize.Core/Services/Library/MusicLibraryService.cs:232-245 | The tagged song has the first performer or "Unknown Artist", the album or "Unknown Album", the title rule, the duration, and art when there is a picture. |
| MusicLibrary.ProcessMusicFile | Sonorize.Core/Services/Library/MusicLibraryService.cs:175-186 | When the tag reader fails, the song comes from the path. Otherwise the title follows GetSongTitle and the duration and art flag come from the tags. |
| MusicLibrary.CreateSongFromFile | Sonorize.Core/Services/Library/MusicLibraryService.cs:81-87 | A song is produced exactly for a valid file, under that file's path. |
| MusicLibrary.FallbackTitle | Sonorize.Core/Services/Library/MusicLibraryService.cs:247-265 | A title taken from the path has no directory separator, and a non-blank tag title wins over it. |
| MusicLibrary.CorruptFileScenario | Sonorize.Core.Tests/MusicLibraryServiceTests.cs:87-108 | An unreadable "corrupt.mp3" gives a song titled "corrupt" by "Unknown Artist" on "Unknown Album". |
| MusicLibrary.SongPath | Sonorize.Core/Services/Library/MusicLibraryService.cs:198-209 | A line stands for a path exactly when it is not blank and its raw first character is not '#'. |
| MusicLibrary.Kept | Sonorize.Core/Services/Library/MusicLibraryService.cs:196-214 | The kept paths are at most one per line, and all exist. |
| MusicLibrary.PlaylistPathsExactly | Sonorize.Core/Services/Library/MusicLibraryService.cs:196-214 | A path is in the playlist exactly when it exists and some song line resolves to it. |
| MusicLibrary.SkippedLinesIgnored | Sonorize.Core/Services/Library/MusicLibraryService.cs:198-202 | A blank or '#' line adds nothing, wherever it stands. |
| MusicLibrary.IndentedHashNamesSong | Sonorize.Core/Services/Library/MusicLibraryService.cs:198 | The '#' test is made on the raw line, so " #song.mp3" is a song line. |
| MusicLibrary.ProcessPlaylistFile | Sonorize.Core/Services/Library/MusicLibraryService.cs:188-230 | An unreadable file, or one with no existing song path, gives no playlist. Otherwise the result is a new File playlist named by the file stem, with the file's path and the kept paths in file order. |

## Left out

- Case-insensitive comparison (`OrdinalIgnoreCase`) is modelled as ASCII upper-casing. Non-ASCII case folding is not modelled.
- Culture-sensitive `OrderBy` over titles and names is modelled as ordinal comparison of the upper-cased strings. Ties between spellings that differ only in case, and the culture's ordering of punctuation and accents, are not modelled.
- Library.IsDemoKey: `StartsWith("demo://")` without a comparison argument is culture-sensitive in .NET. It is modelled as an ordinal prefix test, which agrees for this ASCII prefix except for ignorable characters the culture skips. The same holds for the demo test of LibraryService.BuildFolderTree (FolderTree.IsDemoPath with ignoreCase false).
- Doubles and floats (durations, factors, luminance) are modelled as exact reals, so rounding is not modelled.
- Paths follow .NET on Unix ('/' separator).
- Async code, `Task.Run`, the debouncer, events and the file watcher's threads are left out. A debounced rebuild is a flag (`rebuildRequested`), and PlaylistsChanged is a counter.
- Library.LibraryService.UpdateSongMetadata: the source starts a rebuild without awaiting it (LibraryService.cs:383); the model records it as a pending rebuild (`rebuildRequested`), because the rebuild runs on another task. The in-place edit of the shared Song object is modelled as replacing the map entry, so other holders of that object (the play queue) are not updated.
- `null` strings and lists are not modelled: every string and list is present.
- Song is a value. Updates in place (the rename's FilePath, the metadata edit) replace the map entry, so aliasing of one Song object between the map and other lists is not captured.
- Folder nodes are values, built by functions inside the Build loop, rather than objects shared by reference.
- The RepeatMode enum file is not part of this model. Its three values are taken from their uses (None, All, One).
- Audio.QueueController.SetContext: the source keeps the caller's list itself (`Queue = songs`, QueueController.cs:26), so the queue is shared with the caller (PlayerService.cs:90, 105). The model copies it as a `seq<Song>`. It therefore does not capture that Remove (`Queue.RemoveAt`) and Reorder edit the caller's list in place, nor PlayerService's reference-identity test for a new context (`_queue.Queue != songContext`, PlayerService.cs:86).
- Audio.QueueController.Reorder: requires both indices to be queue positions when they differ. The source throws (ArgumentOutOfRangeException) there, and that exception is not modelled.
- Audio.QueueController.SetContext: with keepCurrent in linear mode the old index is kept even if it is past the new queue's end, as in the source. Only `-1 <= CurrentIndex` is an invariant of every operation, and in-range is kept by every other operation.
- Randomness is a sequence of draws; `Random.Next(bound)` is a draw modulo the bound.
- PlaylistSync.PerformFullSync: requires the found playlists to be new objects, distinct from the existing ones, as the scanner creates them. Aliasing between the two lists is not modelled.
- Library.LibraryService.RescanLibraryFull: the folder scan, the existence of the configured folders and the cache write are inputs or left out. LoadDemoData, InitializeAsync, RefreshLibraryAsync and the cache are I/O.
- Library.EnumerateValues: the dictionary's enumeration order is unspecified, so it is a ghost order that the rebuild's properties are stated over.
- LibraryDataManager is not part of this model beyond the requests the coordinator sends it. Its AllSongs is a fixed snapshot, because its add and remove calls only schedule a rebuild.
- PlaylistPersistenceService is modelled as a map from Id to the stored name, paths and type. JSON and the files are left out, and the Guid Id is a number passed in.
- Theme.HexToRgba: only the channels are modelled. The alpha is formatted with different cultures in the two branches, and that number-to-text conversion is not modelled.
- ThemeUtils.GenerateRootCss is presentation only and is left out.
- Theme.ParseHex: .NET's hex parser also tolerates trailing NUL characters, which the model refuses.
- MusicLibrary.ProcessPlaylistFile: the file's lines, file existence and the current directory are inputs. File.Exists is a lookup of the resolved path without further normalisation. An exception from `Path.GetFullPath` on an invalid path (which makes the source return null) is not modelled.
- LoadSongsFromFolderAsync and LoadPlaylistsFromFolderAsync (directory walks in parallel), GetMetadata and SaveMetadata (TagLib I/O) are I/O and are left out. Their results enter the model as scan results, tags and the save verdict.
- Scrobbling.ShouldScrobble: TimeSpan is seconds as a real; `ScrobblingEnabled` is not consulted by the rule, as in the source.

## Findings

| source | as written | input that shows it | evidently intended | confidence | as-written member | corrected member |
|---|---|---|---|---|---|---|
| Sonorize.Core/Services/Library/LibraryScanCoordinator.cs:23-29 | Each configured root is scanned and cleaned on its own: the cleanup after root k removes every library song not found under root k, and each root's full playlist sync replaces the previous one. | Roots "/a" and "/b" with the library song "/b/x.mp3": the cleanup after scanning "/a" asks to remove "/b/x.mp3" although the scan of "/b" finds it. | Scan every root, then one cleanup against all roots' results and one full playlist sync. | medium (the class is not registered in the application's services); not executed | ScanCoordinator.PerRootRemovesFoundSong | ScanCoordinator.AllRootsRemovals |
