/** SearchService: filters songs by a free-text query. The query is cut into
    tokens at spaces; a song is kept when every token occurs, ignoring case,
    in its title, artist or album. */
module Search {
  import opened Text
  import opened Models

  /** `query.Trim().Split(' ', RemoveEmptyEntries | TrimEntries)` */
  function Tokens(query: string): (tokens: seq<string>)
    ensures forall k :: 0 <= k < |tokens| ==> |tokens[k]| > 0 && !IsBlank(tokens[k])
  {
    SplitTrimmed(Trim(query), ' ')
  }

  /** The token occurs in one of the three searched fields. */
  predicate MatchesToken(s: Song, token: string)
  {
    ContainsIgnoreCase(s.title, token) || ContainsIgnoreCase(s.artist, token) || ContainsIgnoreCase(s.album, token)
  }

  predicate MatchesAll(s: Song, tokens: seq<string>)
  {
    forall k :: 0 <= k < |tokens| ==> MatchesToken(s, tokens[k])
  }

  /** `source.Where(s => tokens.All(...))` */
  function Filter(source: seq<Song>, tokens: seq<string>): (r: seq<Song>)
    ensures |r| <= |source|
    ensures forall s :: s in r ==> s in source && MatchesAll(s, tokens)
    ensures forall s :: s in source && MatchesAll(s, tokens) ==> s in r
  {
    if source == [] then []
    else
      var rest := Filter(source[1..], tokens);
      assert source == [source[0]] + source[1..];
      if MatchesAll(source[0], tokens) then [source[0]] + rest else rest
  }

  /** Search: a blank query, or one without tokens, gives the whole source. */
  function SearchSongs(source: seq<Song>, query: string): (r: seq<Song>)
    ensures IsBlank(query) ==> r == source
    ensures !IsBlank(query) ==> r == Filter(source, Tokens(query))
  {
    if IsBlank(query) then source
    else
      var tokens := Tokens(query);
      if |tokens| == 0 then source else Filter(source, tokens)
  }

  /** `r` is `s` with some elements left out, the rest in their order. */
  predicate IsSubsequence<T(==)>(r: seq<T>, s: seq<T>)
    decreases |s|
  {
    if r == [] then true
    else if s == [] then false
    else if r[0] == s[0] then IsSubsequence(r[1..], s[1..])
    else IsSubsequence(r, s[1..])
  }

  /** The result keeps the source order. */
  lemma {:induction false} FilterIsSubsequence(source: seq<Song>, tokens: seq<string>)
    ensures IsSubsequence(Filter(source, tokens), source)
  {
    if source != [] {
      FilterIsSubsequence(source[1..], tokens);
      var r := Filter(source, tokens);
      if !MatchesAll(source[0], tokens) {
        SubsequenceSkip(r, source);
      }
    }
  }

  lemma {:induction false} SubsequenceSkip<T>(r: seq<T>, s: seq<T>)
    requires s != [] && IsSubsequence(r, s[1..])
    ensures IsSubsequence(r, s)
    decreases |r| + |s|
  {
    if r != [] && r[0] == s[0] {
      if |s| > 1 {
        SubsequenceTail(r, s[1..]);
      }
    }
  }

  lemma {:induction false} SubsequenceTail<T>(r: seq<T>, s: seq<T>)
    requires r != [] && IsSubsequence(r, s)
    ensures IsSubsequence(r[1..], s)
    decreases |r| + |s|
  {
    if s != [] {
      if r[0] == s[0] {
        if r[1..] != [] {
          SubsequenceSkip(r[1..], s);
        }
      } else {
        SubsequenceTail(r, s[1..]);
        if r[1..] != [] {
          SubsequenceSkip(r[1..], s);
        }
      }
    }
  }

  /** Each song appears in the result as often as in the source when it
      matches every token, and not at all otherwise. */
  lemma {:induction false} FilterCounts(source: seq<Song>, tokens: seq<string>, s: Song)
    ensures multiset(Filter(source, tokens))[s] == if MatchesAll(s, tokens) then multiset(source)[s] else 0
  {
    if source != [] {
      FilterCounts(source[1..], tokens, s);
      assert source == [source[0]] + source[1..];
    }
  }

  // The "no tokens" branch cannot be taken: a query that is not blank
  // always yields at least one token.

  lemma {:induction false} PiecesCover(s: string, sep: char, i: int)
    requires 0 <= i < |s| && s[i] != sep
    ensures exists k :: 0 <= k < |Pieces(s, sep)| && s[i] in Pieces(s, sep)[k]
  {
    var rest := Pieces(s[1..], sep);
    if i == 0 {
      assert s[0] in Pieces(s, sep)[0];
    } else {
      PiecesCover(s[1..], sep, i - 1);
      var k :| 0 <= k < |rest| && s[i] in rest[k];
      if s[0] == sep {
        assert Pieces(s, sep)[k + 1] == rest[k];
      } else if k == 0 {
        assert Pieces(s, sep)[0] == [s[0]] + rest[0];
      } else {
        assert Pieces(s, sep)[k] == rest[k];
      }
    }
  }

  lemma {:induction false} NonEmptyKeeps(xs: seq<string>, k: int)
    requires 0 <= k < |xs| && |xs[k]| > 0
    ensures xs[k] in NonEmpty(xs)
  {
    if k > 0 {
      NonEmptyKeeps(xs[1..], k - 1);
    }
  }

  lemma NonBlankQueryHasTokens(query: string)
    requires !IsBlank(query)
    ensures |Tokens(query)| > 0
  {
    var t := Trim(query);
    assert !IsWhiteSpace(t[0]) && t[0] != ' ';
    PiecesCover(t, ' ', 0);
    var pieces := Pieces(t, ' ');
    var k :| 0 <= k < |pieces| && t[0] in pieces[k];
    var j :| 0 <= j < |pieces[k]| && pieces[k][j] == t[0];
    assert !IsBlank(pieces[k]);
    var trimmed := TrimAll(pieces);
    assert |trimmed[k]| > 0;
    NonEmptyKeeps(trimmed, k);
  }

  /** The search itself: a blank query keeps everything; otherwise exactly
      the songs that match every token, in source order. */
  lemma SearchSpec(source: seq<Song>, query: string, s: Song)
    ensures IsSubsequence(SearchSongs(source, query), source)
    ensures !IsBlank(query) ==> |Tokens(query)| > 0
    ensures multiset(SearchSongs(source, query))[s] ==
      if IsBlank(query) || MatchesAll(s, Tokens(query)) then multiset(source)[s] else 0
  {
    if IsBlank(query) {
      SubsequenceRefl(source);
    } else {
      NonBlankQueryHasTokens(query);
      FilterIsSubsequence(source, Tokens(query));
      FilterCounts(source, Tokens(query), s);
    }
  }

  lemma {:induction false} SubsequenceRefl<T>(s: seq<T>)
    ensures IsSubsequence(s, s)
  {
    if s != [] {
      SubsequenceRefl(s[1..]);
    }
  }

  // The scenario of the library tests: four songs, query "Alpha".

  function SampleSongs(): seq<Song>
  {
    [ Song("/music/song1.mp3", "Alpha Track", "Artist A", "Album X", 0.0, false),
      Song("/music/song2.mp3", "Beta Song", "Artist B", "Album Y", 0.0, false),
      Song("/music/song3.mp3", "Gamma Hit", "Artist C", "Album X", 0.0, false),
      Song("/music/song4.mp3", "Another Alpha", "Artist D", "Album Z", 0.0, false) ]
  }

  /** A field that lacks one of the token's letters cannot contain it. */
  lemma LacksLetter(hay: string, needle: string, j: int)
    requires 0 <= j < |needle|
    requires forall i :: 0 <= i < |hay| ==> UpperChar(hay[i]) != UpperChar(needle[j])
    ensures !ContainsIgnoreCase(hay, needle)
  {
    forall i | 0 <= i <= |hay|
      ensures !OccursAt(hay, needle, i)
    {
      if i + |needle| <= |hay| {
        assert Upper(hay)[i..i + |needle|][j] != Upper(needle)[j];
      }
    }
  }

  lemma SampleTokens()
    ensures Tokens("Alpha") == ["Alpha"]
  {
    assert !IsWhiteSpace("Alpha"[0]) && !IsWhiteSpace("Alpha"[4]);
    OneWord("Alpha");
  }

  /** A word without spaces and without white space at its ends is the
      only token of itself. */
  lemma OneWord(w: string)
    requires |w| > 0 && ' ' !in w
    requires !IsWhiteSpace(w[0]) && !IsWhiteSpace(w[|w| - 1])
    ensures Tokens(w) == [w]
  {
    assert LeadingCount(w, IsWhiteSpace) == 0;
    assert TrimStartWhere(w, IsWhiteSpace) == w;
    assert TrailingCount(w, IsWhiteSpace) == 0;
    assert Trim(w) == w;
    PiecesWithoutSeparator(w, ' ');
    assert TrimAll([w]) == [w];
    assert [w][1..] == [];
    assert NonEmpty([w]) == [w];
    assert Tokens(w) == NonEmpty(TrimAll(Pieces(w, ' ')));
  }

  lemma {:induction false} PiecesWithoutSeparator(s: string, sep: char)
    requires sep !in s
    ensures Pieces(s, sep) == [s]
  {
    if s != [] {
      PiecesWithoutSeparator(s[1..], sep);
      assert [s[0]] + s[1..] == s;
    }
  }

  /** Which sample songs match the token "Alpha". */
  lemma SampleMatches()
    ensures MatchesAll(SampleSongs()[0], ["Alpha"]) && MatchesAll(SampleSongs()[3], ["Alpha"])
    ensures !MatchesAll(SampleSongs()[1], ["Alpha"]) && !MatchesAll(SampleSongs()[2], ["Alpha"])
  {
    var ss := SampleSongs();
    assert OccursAt(ss[0].title, "Alpha", 0);
    assert OccursAt(ss[3].title, "Alpha", 8);
    LacksLetter(ss[1].title, "Alpha", 2);
    LacksLetter(ss[1].artist, "Alpha", 2);
    LacksLetter(ss[1].album, "Alpha", 2);
    LacksLetter(ss[2].title, "Alpha", 2);
    LacksLetter(ss[2].artist, "Alpha", 2);
    LacksLetter(ss[2].album, "Alpha", 2);
    assert ["Alpha"][0] == "Alpha";
    assert !MatchesToken(ss[1], "Alpha") && !MatchesToken(ss[2], "Alpha");
  }

  /** Query "Alpha" keeps the first and the fourth sample song. */
  lemma SampleSearchAlpha()
    ensures SearchSongs(SampleSongs(), "Alpha") == [SampleSongs()[0], SampleSongs()[3]]
  {
    var ss := SampleSongs();
    SampleTokens();
    SampleMatches();
    assert !IsBlank("Alpha") by { assert !IsWhiteSpace("Alpha"[0]); }
    FilterFirstAndLast(ss, ["Alpha"]);
  }

  /** Of four songs where only the first and the last match, Filter keeps
      those two. */
  lemma FilterFirstAndLast(ss: seq<Song>, tokens: seq<string>)
    requires |ss| == 4 && MatchesAll(ss[0], tokens) && MatchesAll(ss[3], tokens)
    requires !MatchesAll(ss[1], tokens) && !MatchesAll(ss[2], tokens)
    ensures Filter(ss, tokens) == [ss[0], ss[3]]
  {
    assert ss[3..][1..] == [] && ss[3..][0] == ss[3];
    assert Filter(ss[3..], tokens) == [ss[3]];
    assert ss[2..][1..] == ss[3..] && ss[2..][0] == ss[2];
    assert Filter(ss[2..], tokens) == [ss[3]];
    assert ss[1..][1..] == ss[2..] && ss[1..][0] == ss[1];
    assert Filter(ss[1..], tokens) == [ss[3]];
  }
}
