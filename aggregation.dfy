/** LibraryAggregator: the album and artist views derived from the songs of
    the library. GroupBy yields its groups in the order in which each key
    first occurs; OrderBy then sorts them stably by title or name. */
module Aggregation {
  import opened Wrappers
  import opened Models
  import opened Sorting
  import opened Text

  /** The distinct keys of `songs`, in order of first occurrence. */
  function KeysOf<K(==)>(songs: seq<Song>, key: Song -> K): (ks: seq<K>)
    ensures forall i :: 0 <= i < |songs| ==> key(songs[i]) in ks
    ensures forall k :: k in ks ==> exists i :: 0 <= i < |songs| && key(songs[i]) == k
    ensures forall i, j :: 0 <= i < j < |ks| ==> ks[i] != ks[j]
    ensures |ks| <= |songs|
    decreases |songs|
  {
    if songs == [] then []
    else
      var prefix := songs[..|songs| - 1];
      var ks := KeysOf(prefix, key);
      var k := key(songs[|songs| - 1]);
      assert forall i :: 0 <= i < |prefix| ==> prefix[i] == songs[i];
      if k in ks then ks else ks + [k]
  }

  /** The songs whose key is `k`, in library order: one group of GroupBy. */
  function Where<K(==)>(songs: seq<Song>, key: Song -> K, k: K): (g: seq<Song>)
    ensures |g| <= |songs|
    decreases |songs|
  {
    if songs == [] then []
    else
      var g := Where(songs[..|songs| - 1], key, k);
      var s := songs[|songs| - 1];
      if key(s) == k then g + [s] else g
  }

  /** A group holds every song of its key, as often as the library does,
      and nothing else. */
  lemma {:induction false} WhereContents<K>(songs: seq<Song>, key: Song -> K, k: K)
    ensures forall s :: multiset(Where(songs, key, k))[s] == if key(s) == k then multiset(songs)[s] else 0
    decreases |songs|
  {
    if songs != [] {
      var prefix := songs[..|songs| - 1];
      assert songs == prefix + [songs[|songs| - 1]];
      WhereContents(prefix, key, k);
    }
  }

  /** The index of the first song with cover art, or -1. */
  function FirstWithArt(g: seq<Song>): (i: int)
    ensures -1 <= i < |g|
    ensures i >= 0 ==> g[i].hasArt
    ensures forall j :: 0 <= j < |g| && (i < 0 || j < i) ==> !g[j].hasArt
  {
    if g == [] then -1
    else if g[0].hasArt then 0
    else
      var i := FirstWithArt(g[1..]);
      if i < 0 then -1 else i + 1
  }

  /** The group's cover: the first song with art, else the first song; None
      (null) for an empty group. */
  function Representative(g: seq<Song>): (r: Option<string>)
    ensures r.None? <==> g == []
    ensures FirstWithArt(g) >= 0 ==> r == Some(g[FirstWithArt(g)].filePath)
    ensures g != [] && FirstWithArt(g) < 0 ==> r == Some(g[0].filePath)
  {
    var i := FirstWithArt(g);
    if i >= 0 then Some(g[i].filePath)
    else if g == [] then None
    else Some(g[0].filePath)
  }

  function AlbumKey(s: Song): (string, string)
  {
    (s.album, s.artist)
  }

  function ArtistKey(s: Song): string
  {
    s.artist
  }

  function AlbumOf(s: Song): string
  {
    s.album
  }

  /** OrderBy(a => a.Title) under the culture's comparer: titles compare
      ignoring case first. */
  function AlbumOrder(a: AlbumGroup): string
  {
    Upper(a.title)
  }

  function AlbumGroupKey(a: AlbumGroup): (string, string)
  {
    (a.title, a.artist)
  }

  function AlbumSongCount(a: AlbumGroup): nat
  {
    a.songCount
  }

  function ArtistName(a: ArtistGroup): string
  {
    a.name
  }

  /** OrderBy(a => a.Name) under the culture's comparer. */
  function ArtistOrder(a: ArtistGroup): string
  {
    Upper(a.name)
  }

  function ArtistSongCount(a: ArtistGroup): nat
  {
    a.songCount
  }

  function MakeAlbum(songs: seq<Song>, k: (string, string)): AlbumGroup
  {
    var g := Where(songs, AlbumKey, k);
    AlbumGroup(k.0, k.1, Representative(g), |g|)
  }

  function MakeArtist(songs: seq<Song>, name: string): ArtistGroup
  {
    var g := Where(songs, ArtistKey, name);
    ArtistGroup(name, |KeysOf(g, AlbumOf)|, |g|, Representative(g))
  }

  /** The album groups in GroupBy order, before sorting. */
  function AlbumGroups(songs: seq<Song>): (u: seq<AlbumGroup>)
    ensures |u| == |KeysOf(songs, AlbumKey)|
    ensures forall i :: 0 <= i < |u| ==> u[i] == MakeAlbum(songs, KeysOf(songs, AlbumKey)[i])
  {
    var ks := KeysOf(songs, AlbumKey);
    seq(|ks|, i requires 0 <= i < |ks| => MakeAlbum(songs, ks[i]))
  }

  /** The artist groups in GroupBy order, before sorting. */
  function ArtistGroups(songs: seq<Song>): (u: seq<ArtistGroup>)
    ensures |u| == |KeysOf(songs, ArtistKey)|
    ensures forall i :: 0 <= i < |u| ==> u[i] == MakeArtist(songs, KeysOf(songs, ArtistKey)[i])
    ensures forall i :: 0 <= i < |u| ==> u[i].name == KeysOf(songs, ArtistKey)[i]
  {
    var ks := KeysOf(songs, ArtistKey);
    seq(|ks|, i requires 0 <= i < |ks| => MakeArtist(songs, ks[i]))
  }

  /** One album per distinct (Album, Artist) pair, ordered by title. */
  function Albums(songs: seq<Song>): seq<AlbumGroup>
  {
    SortBy(AlbumGroups(songs), AlbumOrder)
  }

  /** One artist per distinct Artist value, ordered by name. */
  function Artists(songs: seq<Song>): seq<ArtistGroup>
  {
    SortBy(ArtistGroups(songs), ArtistOrder)
  }

  /** LibraryAggregator.Aggregate. */
  function Aggregate(songs: seq<Song>): (seq<AlbumGroup>, seq<ArtistGroup>)
  {
    (Albums(songs), Artists(songs))
  }

  // Group sizes add up to the number of songs.

  function Sizes<K(==)>(songs: seq<Song>, key: Song -> K, ks: seq<K>): nat
  {
    if ks == [] then 0 else |Where(songs, key, ks[0])| + Sizes(songs, key, ks[1..])
  }

  function Count<K(==)>(ks: seq<K>, k: K): nat
  {
    if ks == [] then 0 else (if ks[0] == k then 1 else 0) + Count(ks[1..], k)
  }

  lemma {:induction false} CountDistinct<K>(ks: seq<K>, k: K)
    requires forall i, j :: 0 <= i < j < |ks| ==> ks[i] != ks[j]
    ensures Count(ks, k) == if k in ks then 1 else 0
  {
    if ks != [] {
      CountDistinct(ks[1..], k);
      if ks[0] == k {
        assert k !in ks[1..] by {
          forall j | 0 <= j < |ks[1..]|
            ensures ks[1..][j] != k
          {
            assert ks[1..][j] == ks[j + 1];
          }
        }
      }
    }
  }

  lemma {:induction false} WhereAppend<K>(songs: seq<Song>, x: Song, key: Song -> K, k: K)
    ensures Where(songs + [x], key, k) == Where(songs, key, k) + (if key(x) == k then [x] else [])
  {
    assert (songs + [x])[..|songs|] == songs;
  }

  lemma {:induction false} WhereNone<K>(songs: seq<Song>, key: Song -> K, k: K)
    requires forall i :: 0 <= i < |songs| ==> key(songs[i]) != k
    ensures Where(songs, key, k) == []
    decreases |songs|
  {
    if songs != [] {
      WhereNone(songs[..|songs| - 1], key, k);
    }
  }

  lemma {:induction false} SizesAppendSong<K>(songs: seq<Song>, x: Song, key: Song -> K, ks: seq<K>)
    ensures Sizes(songs + [x], key, ks) == Sizes(songs, key, ks) + Count(ks, key(x))
  {
    if ks != [] {
      WhereAppend(songs, x, key, ks[0]);
      SizesAppendSong(songs, x, key, ks[1..]);
    }
  }

  lemma {:induction false} SizesAppendKey<K>(songs: seq<Song>, key: Song -> K, ks: seq<K>, k: K)
    ensures Sizes(songs, key, ks + [k]) == Sizes(songs, key, ks) + |Where(songs, key, k)|
  {
    if ks != [] {
      assert (ks + [k])[1..] == ks[1..] + [k];
      SizesAppendKey(songs, key, ks[1..], k);
    }
  }

  /** Every song lands in exactly one group. */
  lemma {:induction false} GroupSizesAddUp<K>(songs: seq<Song>, key: Song -> K)
    ensures Sizes(songs, key, KeysOf(songs, key)) == |songs|
    decreases |songs|
  {
    if songs != [] {
      var prefix := songs[..|songs| - 1];
      var x := songs[|songs| - 1];
      assert songs == prefix + [x];
      var d := KeysOf(prefix, key);
      var ks := KeysOf(songs, key);
      GroupSizesAddUp(prefix, key);
      SizesAppendSong(prefix, x, key, ks);
      CountDistinct(ks, key(x));
      if key(x) !in d {
        assert ks == d + [key(x)];
        SizesAppendKey(prefix, key, d, key(x));
        WhereNone(prefix, key, key(x));
      }
    }
  }

  lemma {:induction false} AlbumTotals(songs: seq<Song>, ks: seq<(string, string)>)
    ensures Total(seq(|ks|, i requires 0 <= i < |ks| => MakeAlbum(songs, ks[i])), AlbumSongCount)
            == Sizes(songs, AlbumKey, ks)
  {
    if ks != [] {
      AlbumTotals(songs, ks[1..]);
      var a := seq(|ks|, i requires 0 <= i < |ks| => MakeAlbum(songs, ks[i]));
      assert a[1..] == seq(|ks[1..]|, i requires 0 <= i < |ks[1..]| => MakeAlbum(songs, ks[1..][i]));
    }
  }

  lemma {:induction false} ArtistTotals(songs: seq<Song>, ks: seq<string>)
    ensures Total(seq(|ks|, i requires 0 <= i < |ks| => MakeArtist(songs, ks[i])), ArtistSongCount)
            == Sizes(songs, ArtistKey, ks)
  {
    if ks != [] {
      ArtistTotals(songs, ks[1..]);
      var a := seq(|ks|, i requires 0 <= i < |ks| => MakeArtist(songs, ks[i]));
      assert a[1..] == seq(|ks[1..]|, i requires 0 <= i < |ks[1..]| => MakeArtist(songs, ks[1..][i]));
    }
  }

  // Counting distinct albums.

  lemma {:induction false} DistinctCard<K>(ks: seq<K>)
    requires forall i, j :: 0 <= i < j < |ks| ==> ks[i] != ks[j]
    ensures |set k | k in ks| == |ks|
  {
    if ks != [] {
      var p := ks[..|ks| - 1];
      DistinctCard(p);
      assert (set k | k in ks) == (set k | k in p) + {ks[|ks| - 1]};
      assert ks[|ks| - 1] !in p by {
        forall j | 0 <= j < |p|
          ensures p[j] != ks[|ks| - 1]
        {
          assert p[j] == ks[j];
        }
      }
    }
  }

  /** There are as many keys as different values of the key. */
  lemma KeyCount<K>(songs: seq<Song>, key: Song -> K)
    ensures |KeysOf(songs, key)| == |set s | s in songs :: key(s)|
  {
    var ks := KeysOf(songs, key);
    DistinctCard(ks);
    assert (set k | k in ks) == (set s | s in songs :: key(s)) by {
      forall k | k in ks
        ensures k in (set s | s in songs :: key(s))
      {
        var i :| 0 <= i < |songs| && key(songs[i]) == k;
      }
      forall s | s in songs
        ensures key(s) in ks
      {
        var i :| 0 <= i < |songs| && songs[i] == s;
      }
    }
  }

  /** Distinct().Count() is the number of different album titles. */
  lemma AlbumCountIsDistinctAlbums(g: seq<Song>)
    ensures |KeysOf(g, AlbumOf)| == |set s | s in g :: s.album|
  {
    var ks := KeysOf(g, AlbumOf);
    DistinctCard(ks);
    assert (set k | k in ks) == (set s | s in g :: s.album) by {
      forall k | k in ks
        ensures k in (set s | s in g :: s.album)
      {
        var i :| 0 <= i < |g| && AlbumOf(g[i]) == k;
      }
      forall s | s in g
        ensures s.album in ks
      {
        var i :| 0 <= i < |g| && g[i] == s;
      }
    }
  }

  /** The songs of a group present in the library: its key is some song's key. */
  lemma {:induction false} WhereOfKey<K>(songs: seq<Song>, key: Song -> K, k: K)
    requires k in KeysOf(songs, key)
    ensures |Where(songs, key, k)| > 0
  {
    var i :| 0 <= i < |songs| && key(songs[i]) == k;
    WhereContents(songs, key, k);
    assert multiset(Where(songs, key, k))[songs[i]] > 0;
  }

  /** The album view is ordered by title and holds one album per distinct
      (Album, Artist) pair of the library. */
  lemma AlbumsOrdered(songs: seq<Song>)
    ensures SortedBy(Albums(songs), AlbumOrder)
    ensures DistinctBy(Albums(songs), AlbumGroupKey)
    ensures |Albums(songs)| == |KeysOf(songs, AlbumKey)|
  {
    var ks := KeysOf(songs, AlbumKey);
    var u := AlbumGroups(songs);
    SortByFacts(u, AlbumOrder);
    assert DistinctBy(u, AlbumGroupKey) by {
      forall i, j | 0 <= i < j < |u|
        ensures AlbumGroupKey(u[i]) != AlbumGroupKey(u[j])
      {
        assert AlbumGroupKey(u[i]) == ks[i] && AlbumGroupKey(u[j]) == ks[j];
      }
    }
    SortByKeepsDistinct(u, AlbumOrder, AlbumGroupKey);
  }

  /** Every song's (Album, Artist) pair has its album. */
  lemma AlbumsCoverSongs(songs: seq<Song>)
    ensures forall i :: 0 <= i < |songs| ==> ListsAlbum(Albums(songs), AlbumKey(songs[i]))
  {
    var ks := KeysOf(songs, AlbumKey);
    var u := AlbumGroups(songs);
    var r := Albums(songs);
    SortByPermutes(u, AlbumOrder);
    forall i | 0 <= i < |songs|
      ensures ListsAlbum(r, AlbumKey(songs[i]))
    {
      var m :| 0 <= m < |ks| && ks[m] == AlbumKey(songs[i]);
      assert u[m] in multiset(r);
      var j :| 0 <= j < |r| && r[j] == u[m];
    }
  }

  /** Each album counts exactly the songs of its pair (at least one) and
      shows the cover Representative picks among them. */
  lemma AlbumsContent(songs: seq<Song>)
    ensures forall j :: 0 <= j < |Albums(songs)| ==>
      var a := Albums(songs)[j];
      && a.songCount == |Where(songs, AlbumKey, AlbumGroupKey(a))| > 0
      && a.representativeFilePath == Representative(Where(songs, AlbumKey, AlbumGroupKey(a)))
  {
    var ks := KeysOf(songs, AlbumKey);
    var u := AlbumGroups(songs);
    var r := Albums(songs);
    SortByPermutes(u, AlbumOrder);
    forall j | 0 <= j < |r|
      ensures r[j].songCount == |Where(songs, AlbumKey, AlbumGroupKey(r[j]))| > 0
      ensures r[j].representativeFilePath == Representative(Where(songs, AlbumKey, AlbumGroupKey(r[j])))
    {
      assert r[j] in multiset(u);
      var m :| 0 <= m < |u| && u[m] == r[j];
      WhereOfKey(songs, AlbumKey, ks[m]);
    }
  }

  /** The album counts add up to the number of songs. */
  lemma AlbumsCountAllSongs(songs: seq<Song>)
    ensures Total(Albums(songs), AlbumSongCount) == |songs|
  {
    AlbumTotals(songs, KeysOf(songs, AlbumKey));
    GroupSizesAddUp(songs, AlbumKey);
    SortByKeepsTotal(AlbumGroups(songs), AlbumOrder, AlbumSongCount);
  }

  /** The artist view is ordered by name and holds one artist per distinct
      Artist value of the library. */
  lemma ArtistsOrdered(songs: seq<Song>)
    ensures SortedBy(Artists(songs), ArtistOrder)
    ensures DistinctBy(Artists(songs), ArtistName)
    ensures |Artists(songs)| == |KeysOf(songs, ArtistKey)|
  {
    var ks := KeysOf(songs, ArtistKey);
    var u := ArtistGroups(songs);
    SortByFacts(u, ArtistOrder);
    assert DistinctBy(u, ArtistName) by {
      forall i, j | 0 <= i < j < |u|
        ensures ArtistName(u[i]) != ArtistName(u[j])
      {
        assert ArtistName(u[i]) == ks[i] && ArtistName(u[j]) == ks[j];
      }
    }
    SortByKeepsDistinct(u, ArtistOrder, ArtistName);
  }

  /** Some entry of `r` is the artist `name`. */
  ghost predicate ListsArtist(r: seq<ArtistGroup>, name: string)
  {
    exists j :: 0 <= j < |r| && r[j].name == name
  }

  /** Some entry of `r` is the album `key`. */
  ghost predicate ListsAlbum(r: seq<AlbumGroup>, key: (string, string))
  {
    exists j :: 0 <= j < |r| && AlbumGroupKey(r[j]) == key
  }

  lemma ArtistOfSong(songs: seq<Song>, i: int)
    requires 0 <= i < |songs|
    ensures ListsArtist(Artists(songs), songs[i].artist)
  {
    var ks := KeysOf(songs, ArtistKey);
    var u := ArtistGroups(songs);
    var r := Artists(songs);
    SortByPermutes(u, ArtistOrder);
    var m :| 0 <= m < |ks| && ks[m] == ArtistKey(songs[i]);
    assert u[m] in multiset(r);
    var j :| 0 <= j < |r| && r[j] == u[m];
  }

  /** Every song's artist has its entry. */
  lemma ArtistsCoverSongs(songs: seq<Song>)
    ensures forall i :: 0 <= i < |songs| ==> ListsArtist(Artists(songs), songs[i].artist)
  {
    forall i | 0 <= i < |songs|
      ensures ListsArtist(Artists(songs), songs[i].artist)
    {
      ArtistOfSong(songs, i);
    }
  }

  lemma ArtistEntry(songs: seq<Song>, j: int)
    requires 0 <= j < |Artists(songs)|
    ensures var a := Artists(songs)[j];
      && a.songCount == |Where(songs, ArtistKey, a.name)| > 0
      && a.albumCount == |set s | s in Where(songs, ArtistKey, a.name) :: s.album|
      && a.representativeFilePath == Representative(Where(songs, ArtistKey, a.name))
  {
    var ks := KeysOf(songs, ArtistKey);
    var u := ArtistGroups(songs);
    var r := Artists(songs);
    SortByPermutes(u, ArtistOrder);
    assert r[j] in multiset(u);
    var m :| 0 <= m < |u| && u[m] == r[j];
    WhereOfKey(songs, ArtistKey, ks[m]);
    AlbumCountIsDistinctAlbums(Where(songs, ArtistKey, ks[m]));
  }

  /** Each artist counts exactly their songs (at least one) and the different
      album titles among them, and shows the cover Representative picks. */
  lemma ArtistsContent(songs: seq<Song>)
    ensures forall j :: 0 <= j < |Artists(songs)| ==>
      var a := Artists(songs)[j];
      && a.songCount == |Where(songs, ArtistKey, a.name)| > 0
      && a.albumCount == |set s | s in Where(songs, ArtistKey, a.name) :: s.album|
      && a.representativeFilePath == Representative(Where(songs, ArtistKey, a.name))
  {
    forall j | 0 <= j < |Artists(songs)|
      ensures var a := Artists(songs)[j];
        && a.songCount == |Where(songs, ArtistKey, a.name)| > 0
        && a.albumCount == |set s | s in Where(songs, ArtistKey, a.name) :: s.album|
        && a.representativeFilePath == Representative(Where(songs, ArtistKey, a.name))
    {
      ArtistEntry(songs, j);
    }
  }

  /** The artist counts add up to the number of songs. */
  lemma ArtistsCountAllSongs(songs: seq<Song>)
    ensures Total(Artists(songs), ArtistSongCount) == |songs|
  {
    ArtistTotals(songs, KeysOf(songs, ArtistKey));
    GroupSizesAddUp(songs, ArtistKey);
    SortByKeepsTotal(ArtistGroups(songs), ArtistOrder, ArtistSongCount);
  }

  // The library of the aggregation scenario in the test suite.

  function SampleSongs(): seq<Song>
  {
    [ Song("1.mp3", "Song 1", "Artist A", "Album 1", 0.0, true),
      Song("2.mp3", "Song 2", "Artist A", "Album 1", 0.0, false),
      Song("3.mp3", "Song 3", "Artist A", "Album 2", 0.0, false),
      Song("4.mp3", "Song 4", "Artist B", "Album 1", 0.0, false),
      Song("5.mp3", "Song 5", "Artist C", "Single", 0.0, false) ]
  }

  lemma KeysOfAppend<K>(songs: seq<Song>, x: Song, key: Song -> K)
    ensures KeysOf(songs + [x], key)
         == if key(x) in KeysOf(songs, key) then KeysOf(songs, key) else KeysOf(songs, key) + [key(x)]
  {
    assert (songs + [x])[..|songs|] == songs;
  }

  /** Five songs whose keys run x, x, y, z, w with x, y, z, w distinct. */
  lemma FourKeysOfFive<K>(s: seq<Song>, key: Song -> K)
    requires |s| == 5 && key(s[1]) == key(s[0])
    requires var x, y, z, w := key(s[0]), key(s[2]), key(s[3]), key(s[4]);
      x != y && x != z && x != w && y != z && y != w && z != w
    ensures |KeysOf(s, key)| == 4
  {
    KeyCount(s, key);
    var x, y, z, w := key(s[0]), key(s[2]), key(s[3]), key(s[4]);
    assert (set v | v in s :: key(v)) == {x, y, z, w} by {
      assert s == [s[0], s[1], s[2], s[3], s[4]];
    }
    CardThree(x, y, z);
    assert {x, y, z, w} == {x, y, z} + {w} && w !in {x, y, z};
  }

  lemma CardThree<K>(x: K, y: K, z: K)
    requires x != y && x != z && y != z
    ensures |{x, y, z}| == 3
  {
    assert {x, y, z} == {x, y} + {z} && z !in {x, y};
  }

  /** Five songs whose keys run x, x, x, y, z with x, y, z distinct. */
  lemma ThreeKeysOfFive<K>(s: seq<Song>, key: Song -> K)
    requires |s| == 5 && key(s[1]) == key(s[0]) && key(s[2]) == key(s[0])
    requires var x, y, z := key(s[0]), key(s[3]), key(s[4]); x != y && x != z && y != z
    ensures |KeysOf(s, key)| == 3
  {
    KeyCount(s, key);
    var x, y, z := key(s[0]), key(s[3]), key(s[4]);
    assert (set v | v in s :: key(v)) == {x, y, z} by {
      assert s == [s[0], s[1], s[2], s[3], s[4]];
    }
    CardThree(x, y, z);
  }

  lemma SampleAlbumKeys()
    ensures |KeysOf(SampleSongs(), AlbumKey)| == 4
  {
    FourKeysOfFive(SampleSongs(), AlbumKey);
  }

  lemma SampleArtistKeys()
    ensures |KeysOf(SampleSongs(), ArtistKey)| == 3
  {
    ThreeKeysOfFive(SampleSongs(), ArtistKey);
  }

  lemma SampleAlbumA1()
    ensures var s := SampleSongs();
      Where(s, AlbumKey, ("Album 1", "Artist A")) == [s[0], s[1]]
  {
    var s := SampleSongs();
    WhereAppend([], s[0], AlbumKey, ("Album 1", "Artist A"));
    assert [] + [s[0]] == [s[0]];
    assert Where([s[0]], AlbumKey, ("Album 1", "Artist A")) == [s[0]];
    WhereAppend([s[0]], s[1], AlbumKey, ("Album 1", "Artist A"));
    assert [s[0]] + [s[1]] == [s[0], s[1]];
    assert Where([s[0], s[1]], AlbumKey, ("Album 1", "Artist A")) == [s[0], s[1]];
    WhereAppend([s[0], s[1]], s[2], AlbumKey, ("Album 1", "Artist A"));
    assert [s[0], s[1]] + [s[2]] == [s[0], s[1], s[2]];
    assert Where([s[0], s[1], s[2]], AlbumKey, ("Album 1", "Artist A")) == [s[0], s[1]];
    WhereAppend([s[0], s[1], s[2]], s[3], AlbumKey, ("Album 1", "Artist A"));
    assert [s[0], s[1], s[2]] + [s[3]] == [s[0], s[1], s[2], s[3]];
    assert Where([s[0], s[1], s[2], s[3]], AlbumKey, ("Album 1", "Artist A")) == [s[0], s[1]];
    WhereAppend([s[0], s[1], s[2], s[3]], s[4], AlbumKey, ("Album 1", "Artist A"));
    assert [s[0], s[1], s[2], s[3]] + [s[4]] == s;
    assert Where(s, AlbumKey, ("Album 1", "Artist A")) == [s[0], s[1]];
  }

  lemma SampleAlbumB1()
    ensures var s := SampleSongs();
      Where(s, AlbumKey, ("Album 1", "Artist B")) == [s[3]]
  {
    var s := SampleSongs();
    WhereAppend([], s[0], AlbumKey, ("Album 1", "Artist B"));
    assert [] + [s[0]] == [s[0]];
    assert Where([s[0]], AlbumKey, ("Album 1", "Artist B")) == [];
    WhereAppend([s[0]], s[1], AlbumKey, ("Album 1", "Artist B"));
    assert [s[0]] + [s[1]] == [s[0], s[1]];
    assert Where([s[0], s[1]], AlbumKey, ("Album 1", "Artist B")) == [];
    WhereAppend([s[0], s[1]], s[2], AlbumKey, ("Album 1", "Artist B"));
    assert [s[0], s[1]] + [s[2]] == [s[0], s[1], s[2]];
    assert Where([s[0], s[1], s[2]], AlbumKey, ("Album 1", "Artist B")) == [];
    WhereAppend([s[0], s[1], s[2]], s[3], AlbumKey, ("Album 1", "Artist B"));
    assert [s[0], s[1], s[2]] + [s[3]] == [s[0], s[1], s[2], s[3]];
    assert Where([s[0], s[1], s[2], s[3]], AlbumKey, ("Album 1", "Artist B")) == [s[3]];
    WhereAppend([s[0], s[1], s[2], s[3]], s[4], AlbumKey, ("Album 1", "Artist B"));
    assert [s[0], s[1], s[2], s[3]] + [s[4]] == s;
    assert Where(s, AlbumKey, ("Album 1", "Artist B")) == [s[3]];
  }

  lemma SampleArtistGroup()
    ensures var s := SampleSongs();
      Where(s, ArtistKey, "Artist A") == [s[0], s[1], s[2]]
  {
    var s := SampleSongs();
    WhereAppend([], s[0], ArtistKey, "Artist A");
    assert [] + [s[0]] == [s[0]];
    assert Where([s[0]], ArtistKey, "Artist A") == [s[0]];
    WhereAppend([s[0]], s[1], ArtistKey, "Artist A");
    assert [s[0]] + [s[1]] == [s[0], s[1]];
    assert Where([s[0], s[1]], ArtistKey, "Artist A") == [s[0], s[1]];
    WhereAppend([s[0], s[1]], s[2], ArtistKey, "Artist A");
    assert [s[0], s[1]] + [s[2]] == [s[0], s[1], s[2]];
    assert Where([s[0], s[1], s[2]], ArtistKey, "Artist A") == [s[0], s[1], s[2]];
    WhereAppend([s[0], s[1], s[2]], s[3], ArtistKey, "Artist A");
    assert [s[0], s[1], s[2]] + [s[3]] == [s[0], s[1], s[2], s[3]];
    assert Where([s[0], s[1], s[2], s[3]], ArtistKey, "Artist A") == [s[0], s[1], s[2]];
    WhereAppend([s[0], s[1], s[2], s[3]], s[4], ArtistKey, "Artist A");
    assert [s[0], s[1], s[2], s[3]] + [s[4]] == s;
    assert Where(s, ArtistKey, "Artist A") == [s[0], s[1], s[2]];
  }

  lemma SampleArtistAlbums()
    ensures |set x | x in Where(SampleSongs(), ArtistKey, "Artist A") :: x.album| == 2
  {
    var s := SampleSongs();
    SampleArtistGroup();
    var g := Where(s, ArtistKey, "Artist A");
    assert (set x | x in g :: x.album) == {"Album 1", "Album 2"} by {
      assert g[0].album == "Album 1" && g[2].album == "Album 2";
      forall x | x in g
        ensures x.album in {"Album 1", "Album 2"}
      {
      }
    }
  }

  /** Four albums (the same title by two artists counts twice); "Album 1"
      by "Artist A" has two songs and the cover of the song with art. */
  lemma SampleAlbums()
    ensures var albums := Aggregate(SampleSongs()).0;
      && |albums| == 4
      && (exists j :: 0 <= j < |albums| && AlbumGroupKey(albums[j]) == ("Album 1", "Artist A")
            && albums[j].songCount == 2 && albums[j].representativeFilePath == Some("1.mp3"))
      && (exists j :: 0 <= j < |albums| && AlbumGroupKey(albums[j]) == ("Album 1", "Artist B")
            && albums[j].songCount == 1)
  {
    var s := SampleSongs();
    SampleAlbumKeys();
    SampleAlbumA1();
    SampleAlbumB1();
    AlbumsOrdered(s);
    var albums := Albums(s);
    AlbumsCoverSongs(s);
    AlbumsContent(s);
    assert ListsAlbum(albums, AlbumKey(s[0]));
    var a :| 0 <= a < |albums| && AlbumGroupKey(albums[a]) == ("Album 1", "Artist A");
    assert albums[a].songCount == 2 && albums[a].representativeFilePath == Some("1.mp3");
    assert ListsAlbum(albums, AlbumKey(s[3]));
    var b :| 0 <= b < |albums| && AlbumGroupKey(albums[b]) == ("Album 1", "Artist B");
    assert albums[b].songCount == 1;
  }

  /** Three artists; "Artist A" has three songs on two albums. */
  lemma SampleArtists()
    ensures var artists := Aggregate(SampleSongs()).1;
      && |artists| == 3
      && (exists j :: 0 <= j < |artists| && artists[j].name == "Artist A"
            && artists[j].songCount == 3 && artists[j].albumCount == 2)
  {
    var s := SampleSongs();
    SampleArtistKeys();
    SortByPermutes(ArtistGroups(s), ArtistOrder);
    var artists := Artists(s);
    ArtistOfSong(s, 0);
    var c :| 0 <= c < |artists| && artists[c].name == "Artist A";
    ArtistEntry(s, c);
    SampleArtistGroup();
    SampleArtistAlbums();
  }
}
