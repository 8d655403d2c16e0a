/** The play queue: the ordered songs, the current position, shuffle and
    repeat modes. In shuffle mode a deck (a permutation of the queue's
    indices, built by Fisher–Yates) fixes the play order and a pointer marks
    the current card. Randomness is a sequence of draws passed in. */
module Audio {
  import opened Models
  import opened Text
  import opened Wrappers

  /** RepeatMode.None, RepeatMode.All, RepeatMode.One. */
  datatype RepeatMode = Off | All | One

  /** The ToggleRepeat cycle: None, All, One, None. */
  function NextRepeat(m: RepeatMode): (r: RepeatMode)
    ensures r != m
  {
    match m
    case Off => All
    case All => One
    case One => Off
  }

  lemma RepeatCycle(m: RepeatMode)
    ensures NextRepeat(NextRepeat(NextRepeat(m))) == m
    ensures NextRepeat(NextRepeat(m)) != m
  {
  }

  /** Math.Clamp(x, lo, hi). */
  function Clamp(x: int, lo: int, hi: int): (r: int)
    requires lo <= hi
    ensures lo <= r <= hi
    ensures lo <= x <= hi ==> r == x
  {
    if x < lo then lo else if x > hi then hi else x
  }

  /** Enumerable.Range(0, n). */
  function Range(n: nat): (r: seq<int>)
    ensures |r| == n
    ensures forall i :: 0 <= i < n ==> r[i] == i
  {
    seq(n, i => i)
  }

  /** The j-th draw of Random.Next(bound): a value in [0, bound). */
  function Draw(rng: seq<nat>, j: nat, bound: nat): (k: nat)
    requires bound > 0
    ensures k < bound
  {
    if j < |rng| then rng[j] % bound else 0
  }

  function Swap(s: seq<int>, i: nat, j: nat): seq<int>
    requires i < |s| && j < |s|
  {
    s[i := s[j]][j := s[i]]
  }

  /** The rest of the Fisher–Yates loop once `n` cards remain unshuffled and
      `j` draws have been made. */
  function Shuffled(s: seq<int>, n: nat, rng: seq<nat>, j: nat): (r: seq<int>)
    requires n <= |s|
    ensures |r| == |s|
    decreases n
  {
    if n <= 1 then s
    else Shuffled(Swap(s, Draw(rng, j, n), n - 1), n - 1, rng, j + 1)
  }

  /** The deck RebuildShuffleDeck builds for a queue of n songs. */
  function FisherYates(n: nat, rng: seq<nat>): seq<int>
  {
    Shuffled(Range(n), n, rng, 0)
  }

  ghost predicate IsPermutationOfRange(d: seq<int>, n: nat)
  {
    multiset(d) == multiset(Range(n))
  }

  lemma {:induction false} ShuffledPermutes(s: seq<int>, n: nat, rng: seq<nat>, j: nat)
    requires n <= |s|
    ensures multiset(Shuffled(s, n, rng, j)) == multiset(s)
    decreases n
  {
    if n > 1 {
      var t := Swap(s, Draw(rng, j, n), n - 1);
      assert multiset(t) == multiset(s);
      ShuffledPermutes(t, n - 1, rng, j + 1);
    }
  }

  /** Whatever the draws, the deck is a permutation of the queue's indices. */
  lemma FisherYatesPermutes(n: nat, rng: seq<nat>)
    ensures IsPermutationOfRange(FisherYates(n, rng), n)
  {
    ShuffledPermutes(Range(n), n, rng, 0);
  }

  lemma {:induction false} RangeCount(n: nat, v: int)
    ensures multiset(Range(n))[v] == if 0 <= v < n then 1 else 0
  {
    if n > 0 {
      RangeCount(n - 1, v);
      assert Range(n) == Range(n - 1) + [n - 1];
    }
  }

  /** A permutation of 0..n-1 holds every index exactly once. */
  lemma PermutationOfRangeFacts(d: seq<int>, n: nat)
    requires IsPermutationOfRange(d, n)
    ensures |d| == n
    ensures forall i :: 0 <= i < |d| ==> 0 <= d[i] < n
    ensures forall v :: 0 <= v < n ==> v in d
    ensures forall i, j :: 0 <= i < j < |d| ==> d[i] != d[j]
  {
    assert |d| == |multiset(d)| == |multiset(Range(n))| == n;
    forall i | 0 <= i < |d|
      ensures 0 <= d[i] < n
    {
      assert d[i] in multiset(d);
      RangeCount(n, d[i]);
    }
    forall v | 0 <= v < n
      ensures v in d
    {
      RangeCount(n, v);
      assert v in multiset(d);
    }
    forall i, j | 0 <= i < j < |d|
      ensures d[i] != d[j]
    {
      assert d == d[..j] + [d[j]] + d[j + 1..];
      assert d[..j][i] == d[i];
      assert d[i] in multiset(d[..j]);
      RangeCount(n, d[i]);
    }
  }

  /** SyncShufflePointer on values: (current index, pointer) afterwards. */
  function Sync(d: seq<int>, cur: int, ptr: int): (int, int)
  {
    var p := IndexOf(d, cur);
    if p != -1 then (cur, p)
    else if |d| > 0 then (d[0], 0)
    else (cur, ptr)
  }

  /** After a sync over a non-empty deck the deck pointer holds the current index,
      which is a queue position; a current index that was already a queue
      position is kept. */
  lemma SyncFindsCurrent(d: seq<int>, n: nat, cur: int, ptr: int)
    requires IsPermutationOfRange(d, n) && n > 0
    ensures 0 <= Sync(d, cur, ptr).1 < n
    ensures d[Sync(d, cur, ptr).1] == Sync(d, cur, ptr).0
    ensures 0 <= Sync(d, cur, ptr).0 < n
    ensures 0 <= cur < n ==> Sync(d, cur, ptr).0 == cur
  {
    PermutationOfRangeFacts(d, n);
    if 0 <= cur < n {
      assert cur in d;
      var i :| 0 <= i < |d| && d[i] == cur;
      assert IndexOf(d, cur) != -1;
    }
  }

  /** One move of AdvanceLinear (over queue positions) or AdvanceShuffle
      (over deck positions): whether it moved, and the new position. */
  function Step(pos: int, count: nat, forward: bool, autoAdvance: bool, mode: RepeatMode): (r: (bool, int))
    requires count > 0
    ensures r.0 ==> 0 <= r.1 < count
    ensures !r.0 ==> r.1 == pos
  {
    var next := if forward then pos + 1 else pos - 1;
    if next >= count then
      if mode == All || (!autoAdvance && forward) then (true, 0) else (false, pos)
    else if next < 0 then (true, count - 1)
    else (true, next)
  }

  /** Next then Previous (and Previous then Next) return to the same position. */
  lemma StepRoundTrip(pos: int, count: nat, mode: RepeatMode)
    requires 0 <= pos < count
    ensures Step(Step(pos, count, true, false, mode).1, count, false, false, mode) == (true, pos)
    ensures Step(Step(pos, count, false, false, mode).1, count, true, false, mode) == (true, pos)
  {
  }

  /** k automatic advances from `pos`, stopping at the first one that fails. */
  function AutoAdvances(pos: int, count: nat, k: nat, mode: RepeatMode): (r: (bool, int))
    requires count > 0
    decreases k
  {
    if k == 0 then (true, pos)
    else
      var s := Step(pos, count, true, true, mode);
      if !s.0 then (false, pos) else AutoAdvances(s.1, count, k - 1, mode)
  }

  lemma {:induction false} AutoAdvancesWithoutRepeat(pos: int, count: nat, k: nat)
    requires count > 0 && -1 <= pos && pos + k <= count - 1
    ensures AutoAdvances(pos, count, k, Off) == (true, pos + k)
    decreases k
  {
    if k > 0 {
      AutoAdvancesWithoutRepeat(pos + 1, count, k - 1);
    }
  }

  /** With repeat off, automatic advance from the start plays positions
      0, 1, ..., count - 1 in order and then stops. */
  lemma PlaysEachPositionOnce(count: nat)
    requires count > 0
    ensures forall k :: 1 <= k <= count ==> AutoAdvances(-1, count, k, Off) == (true, k - 1)
    ensures AutoAdvances(-1, count, count + 1, Off) == (false, count - 1)
  {
    forall k | 1 <= k <= count
      ensures AutoAdvances(-1, count, k, Off) == (true, k - 1)
    {
      AutoAdvancesWithoutRepeat(-1, count, k);
    }
    AutoAdvancesStopAtEnd(-1, count, count);
  }

  lemma {:induction false} AutoAdvancesStopAtEnd(pos: int, count: nat, k: nat)
    requires count > 0 && -1 <= pos && pos + k == count - 1
    ensures AutoAdvances(pos, count, k + 1, Off) == (false, count - 1)
    decreases k
  {
    if k > 0 {
      AutoAdvancesStopAtEnd(pos + 1, count, k - 1);
    }
  }

  /** In shuffle mode the positions are deck positions, so a full pass with
      repeat off plays every song of the queue exactly once. */
  lemma ShufflePlaysEverySongOnce(d: seq<int>, n: nat)
    requires IsPermutationOfRange(d, n) && n > 0
    ensures forall k :: 1 <= k <= n ==> AutoAdvances(-1, n, k, Off) == (true, k - 1)
    ensures AutoAdvances(-1, n, n + 1, Off).0 == false
    ensures |d| == n
    ensures forall v :: 0 <= v < n ==> v in d
    ensures forall i, j :: 0 <= i < j < |d| ==> d[i] != d[j]
  {
    PlaysEachPositionOnce(n);
    PermutationOfRangeFacts(d, n);
  }

  /** With repeat all, automatic advance never stops. */
  lemma {:induction false} RepeatAllNeverStops(pos: int, count: nat, k: nat)
    requires count > 0
    ensures AutoAdvances(pos, count, k, All).0
    decreases k
  {
    if k > 0 {
      RepeatAllNeverStops(Step(pos, count, true, true, All).1, count, k - 1);
    }
  }

  /** List.RemoveAt(i). */
  function RemoveAt<T>(q: seq<T>, i: nat): (r: seq<T>)
    requires i < |q|
    ensures |r| == |q| - 1
  {
    q[..i] + q[i + 1..]
  }

  /** List.Insert(i, x). */
  function InsertAt<T>(q: seq<T>, i: nat, x: T): (r: seq<T>)
    requires i <= |q|
    ensures |r| == |q| + 1
  {
    q[..i] + [x] + q[i..]
  }

  /** The queue after Reorder moves the song at `from` to `to`. */
  function Moved<T>(q: seq<T>, from: nat, to: nat): seq<T>
    requires from < |q| && to < |q|
  {
    InsertAt(RemoveAt(q, from), to, q[from])
  }

  /** The current index after Reorder(from, to). */
  function MovedIndex(c: int, from: int, to: int): int
  {
    if c == from then to
    else if from < c <= to then c - 1
    else if to <= c < from then c + 1
    else c
  }

  /** Reorder moves one song and keeps all the others. */
  lemma MovedPermutes<T>(q: seq<T>, from: nat, to: nat)
    requires from < |q| && to < |q|
    ensures |Moved(q, from, to)| == |q|
    ensures Moved(q, from, to)[to] == q[from]
    ensures multiset(Moved(q, from, to)) == multiset(q)
  {
    var r := RemoveAt(q, from);
    assert q == q[..from] + [q[from]] + q[from + 1..];
    assert multiset(q) == multiset(r) + multiset{q[from]};
    assert r == r[..to] + r[to..];
  }

  /** Reorder keeps the current index on the song that was current. */
  lemma MovedIndexFollowsSong<T>(q: seq<T>, from: nat, to: nat, c: int)
    requires from < |q| && to < |q| && 0 <= c < |q|
    ensures 0 <= MovedIndex(c, from, to) < |q|
    ensures Moved(q, from, to)[MovedIndex(c, from, to)] == q[c]
  {
  }

  /** The current index after Remove(i) leaves `newCount` songs. */
  function RemovedIndex(c: int, i: int, newCount: nat): int
  {
    if newCount == 0 then -1
    else if c == i then (if c >= newCount then 0 else c)
    else if i < c then c - 1
    else c
  }

  /** Removing another song keeps the current song current; removing the
      current song makes the next one current, or the first one when it was
      the last. */
  lemma RemovedIndexFollowsSong<T>(q: seq<T>, i: nat, c: int)
    requires i < |q| && 0 <= c < |q|
    ensures c != i ==> RemoveAt(q, i)[RemovedIndex(c, i, |q| - 1)] == q[c]
    ensures c == i && i + 1 < |q| ==> RemoveAt(q, i)[RemovedIndex(c, i, |q| - 1)] == q[i + 1]
    ensures c == i && i + 1 == |q| && |q| > 1 ==> RemovedIndex(c, i, |q| - 1) == 0
    ensures -1 <= RemovedIndex(c, i, |q| - 1) < |q| - 1 || |q| == 1
  {
  }

  /** List.FindIndex(s => s.FilePath == path). */
  function FindByPath(q: seq<Song>, path: string): (i: int)
    ensures -1 <= i < |q|
    ensures i >= 0 ==> q[i].filePath == path
    ensures forall j :: 0 <= j < |q| && (i < 0 || j < i) ==> q[j].filePath != path
  {
    if |q| == 0 then -1
    else if q[0].filePath == path then 0
    else var k := FindByPath(q[1..], path); if k < 0 then -1 else k + 1
  }

  class QueueController {
    var queue: seq<Song>
    var currentIndex: int
    var isShuffle: bool
    var repeatMode: RepeatMode
    var deck: array<int>
    var pointer: int

    /** What every operation keeps: the current index is -1 or more, and in
        shuffle mode the deck is a permutation of the queue's indices whose
        deck pointer holds the current index (or both are -1: nothing selected). */
    ghost predicate Valid()
      reads this, deck
    {
      -1 <= currentIndex
      && (isShuffle ==> IsPermutationOfRange(deck[..], |queue|))
      && (isShuffle && |queue| > 0 ==>
            (pointer == -1 && currentIndex == -1)
            || (0 <= pointer < deck.Length && deck[pointer] == currentIndex))
    }

    /** The current index is a queue position or -1. SetContext with
        keepCurrent may leave an index past the end of a shorter queue. */
    predicate InRange()
      reads this
    {
      currentIndex < |queue|
    }

    constructor ()
      ensures Valid() && InRange()
      ensures queue == [] && currentIndex == -1 && !isShuffle && repeatMode == Off
      ensures pointer == -1 && deck.Length == 0
    {
      queue := [];
      currentIndex := -1;
      isShuffle := false;
      repeatMode := Off;
      deck := new int[0];
      pointer := -1;
    }

    /** Queue[CurrentIndex] when the index is a queue position. */
    function CurrentSong(): (r: Option<Song>)
      reads this
      ensures r.Some? <==> 0 <= currentIndex < |queue|
      ensures r.Some? ==> r.value == queue[currentIndex]
    {
      if 0 <= currentIndex < |queue| then Some(queue[currentIndex]) else None
    }

    /** `(deck[k], deck[n]) = (deck[n], deck[k])`. */
    static method SwapCards(d: array<int>, i: nat, j: nat)
      requires i < d.Length && j < d.Length
      modifies d
      ensures d[..] == Swap(old(d[..]), i, j)
    {
      var t := d[i];
      d[i] := d[j];
      d[j] := t;
    }

    method RebuildShuffleDeck(rng: seq<nat>)
      modifies this
      ensures fresh(deck) && deck[..] == FisherYates(|queue|, rng)
      ensures IsPermutationOfRange(deck[..], |queue|)
      ensures queue == old(queue) && currentIndex == old(currentIndex) && pointer == old(pointer)
      ensures isShuffle == old(isShuffle) && repeatMode == old(repeatMode)
    {
      var size := |queue|;
      var d := new int[size](i => i);
      assert d[..] == Range(size);
      var n := size;
      while n > 1
        modifies d
        invariant 0 <= n <= size
        invariant Shuffled(d[..], n, rng, size - n) == FisherYates(size, rng)
      {
        ghost var before := d[..];
        n := n - 1;
        var k := Draw(rng, size - 1 - n, n + 1);
        assert Shuffled(before, n + 1, rng, size - 1 - n) == Shuffled(Swap(before, k, n), n, rng, size - n);
        SwapCards(d, k, n);
      }
      assert Shuffled(d[..], n, rng, size - n) == d[..];
      deck := d;

      FisherYatesPermutes(size, rng);
    }

    method SyncShufflePointer()
      requires -1 <= currentIndex
      requires isShuffle ==> IsPermutationOfRange(deck[..], |queue|)
      modifies this
      ensures Valid()
      ensures queue == old(queue) && deck == old(deck)
      ensures isShuffle == old(isShuffle) && repeatMode == old(repeatMode)
      ensures isShuffle ==> (currentIndex, pointer) == Sync(deck[..], old(currentIndex), old(pointer))
      ensures !isShuffle ==> currentIndex == old(currentIndex) && pointer == old(pointer)
    {
      if !isShuffle {
        return;
      }
      var p := IndexOf(deck[..], currentIndex);
      if p != -1 {
        pointer := p;
      } else if deck.Length > 0 {
        pointer := 0;
        currentIndex := deck[0];
      }
      if |queue| > 0 {
        SyncFindsCurrent(deck[..], |queue|, old(currentIndex), old(pointer));
      }
    }

    method SetContext(songs: seq<Song>, keepCurrent: bool, rng: seq<nat>)
      requires Valid()
      modifies this
      ensures Valid()
      ensures queue == songs && isShuffle == old(isShuffle) && repeatMode == old(repeatMode)
      ensures isShuffle ==> fresh(deck) && deck[..] == FisherYates(|songs|, rng)
      ensures !isShuffle ==> deck == old(deck)
      ensures !keepCurrent ==> currentIndex == -1 && pointer == -1 && InRange()
      ensures keepCurrent && !isShuffle ==> currentIndex == old(currentIndex) && pointer == old(pointer)
      ensures keepCurrent && isShuffle ==>
                (currentIndex, pointer) == Sync(deck[..], old(currentIndex), old(pointer))
    {
      queue := songs;
      if isShuffle {
        RebuildShuffleDeck(rng);
      }
      if !keepCurrent {
        currentIndex := -1;
        pointer := -1;
      } else {
        SyncShufflePointer();
      }
    }

    /** Selects a position, clamped to [-1, Count - 1]. */
    method SetIndex(index: int)
      requires Valid()
      modifies this
      ensures Valid() && InRange()
      ensures queue == old(queue) && deck == old(deck)
      ensures isShuffle == old(isShuffle) && repeatMode == old(repeatMode)
      ensures !isShuffle ==> currentIndex == Clamp(index, -1, |queue| - 1) && pointer == old(pointer)
      ensures isShuffle ==> (currentIndex, pointer) == Sync(deck[..], Clamp(index, -1, |queue| - 1), old(pointer))
      ensures 0 <= index < |queue| ==> currentIndex == index
    {
      currentIndex := Clamp(index, -1, |queue| - 1);
      SyncShufflePointer();
      if isShuffle && |queue| > 0 {
        SyncFindsCurrent(deck[..], |queue|, Clamp(index, -1, |queue| - 1), old(pointer));
      }
    }

    /** Selects the first queued song with the same file path; with none,
        the index becomes -1 (and, in shuffle mode, the deck's first card). */
    method SetIndexBySong(song: Song)
      requires Valid()
      modifies this
      ensures Valid() && InRange()
      ensures queue == old(queue) && deck == old(deck)
      ensures isShuffle == old(isShuffle) && repeatMode == old(repeatMode)
      ensures FindByPath(queue, song.filePath) >= 0 ==>
                currentIndex == FindByPath(queue, song.filePath)
                && queue[currentIndex].filePath == song.filePath
      ensures FindByPath(queue, song.filePath) < 0 && !isShuffle ==> currentIndex == -1
    {
      var index := FindByPath(queue, song.filePath);
      SetIndex(index);
    }

    method AdvanceLinear(forward: bool, autoAdvance: bool) returns (moved: bool)
      requires Valid() && !isShuffle && |queue| > 0
      modifies this
      ensures Valid()
      ensures queue == old(queue) && deck == old(deck) && pointer == old(pointer)
      ensures isShuffle == old(isShuffle) && repeatMode == old(repeatMode)
      ensures (moved, currentIndex) == Step(old(currentIndex), |queue|, forward, autoAdvance, repeatMode)
    {
      var next := if forward then currentIndex + 1 else currentIndex - 1;
      if next >= |queue| {
        if repeatMode == All || (!autoAdvance && forward) {
          currentIndex := 0;
          return true;
        }
        return false;
      }
      if next < 0 {
        currentIndex := |queue| - 1;
        return true;
      }
      currentIndex := next;
      return true;
    }

    method AdvanceShuffle(forward: bool, autoAdvance: bool) returns (moved: bool)
      requires Valid() && isShuffle
      modifies this
      ensures Valid()
      ensures queue == old(queue) && deck == old(deck)
      ensures isShuffle == old(isShuffle) && repeatMode == old(repeatMode)
      ensures |queue| == 0 ==> !moved && currentIndex == old(currentIndex) && pointer == old(pointer)
      ensures |queue| > 0 ==>
                (moved, pointer) == Step(old(pointer), |queue|, forward, autoAdvance, repeatMode)
                && currentIndex == (if moved then deck[pointer] else old(currentIndex))
    {
      PermutationOfRangeFacts(deck[..], |queue|);
      if deck.Length == 0 {
        return false;
      }
      var nextPtr := if forward then pointer + 1 else pointer - 1;
      if nextPtr >= deck.Length {
        if repeatMode == All || (!autoAdvance && forward) {
          nextPtr := 0;
        } else {
          return false;
        }
      } else if nextPtr < 0 {
        nextPtr := deck.Length - 1;
      }
      pointer := nextPtr;
      currentIndex := deck[pointer];
      return true;
    }

    /** Next song. Repeat One on an automatic advance stays put. */
    method TryAdvance(autoAdvance: bool) returns (moved: bool)
      requires Valid()
      modifies this
      ensures Valid()
      ensures old(InRange()) ==> InRange()
      ensures queue == old(queue) && deck == old(deck)
      ensures isShuffle == old(isShuffle) && repeatMode == old(repeatMode)
      ensures |queue| == 0 ==> !moved && currentIndex == old(currentIndex) && pointer == old(pointer)
      ensures |queue| > 0 && repeatMode == One && autoAdvance ==>
                moved && currentIndex == old(currentIndex) && pointer == old(pointer)
      ensures |queue| > 0 && !(repeatMode == One && autoAdvance) && !isShuffle ==>
                (moved, currentIndex) == Step(old(currentIndex), |queue|, true, autoAdvance, repeatMode)
                && pointer == old(pointer)
      ensures |queue| > 0 && !(repeatMode == One && autoAdvance) && isShuffle ==>
                (moved, pointer) == Step(old(pointer), |queue|, true, autoAdvance, repeatMode)
                && currentIndex == (if moved then deck[pointer] else old(currentIndex))
    {
      if |queue| == 0 {
        return false;
      }
      if repeatMode == One && autoAdvance {
        return true;
      }
      if isShuffle {
        moved := AdvanceShuffle(true, autoAdvance);
        PermutationOfRangeFacts(deck[..], |queue|);
      } else {
        moved := AdvanceLinear(true, autoAdvance);
      }
    }

    /** Previous song; from the first position it wraps to the last. */
    method TryRegress() returns (moved: bool)
      requires Valid()
      modifies this
      ensures Valid()
      ensures old(InRange()) ==> InRange()
      ensures queue == old(queue) && deck == old(deck)
      ensures isShuffle == old(isShuffle) && repeatMode == old(repeatMode)
      ensures |queue| == 0 ==> !moved && currentIndex == old(currentIndex) && pointer == old(pointer)
      ensures |queue| > 0 && !isShuffle ==>
                (moved, currentIndex) == Step(old(currentIndex), |queue|, false, false, repeatMode)
                && pointer == old(pointer)
      ensures |queue| > 0 && isShuffle ==>
                (moved, pointer) == Step(old(pointer), |queue|, false, false, repeatMode)
                && currentIndex == (if moved then deck[pointer] else old(currentIndex))
    {
      if |queue| == 0 {
        return false;
      }
      if isShuffle {
        moved := AdvanceShuffle(false, false);
        PermutationOfRangeFacts(deck[..], |queue|);
      } else {
        moved := AdvanceLinear(false, false);
      }
    }

    /** Turning shuffle on deals a new deck and keeps the current song. */
    method ToggleShuffle(rng: seq<nat>)
      requires Valid()
      modifies this
      ensures Valid()
      ensures old(InRange()) ==> InRange()
      ensures isShuffle == !old(isShuffle)
      ensures queue == old(queue) && repeatMode == old(repeatMode)
      ensures isShuffle ==> (fresh(deck) && deck[..] == FisherYates(|queue|, rng)
                             && (currentIndex, pointer) == Sync(deck[..], old(currentIndex), old(pointer)))
      ensures !isShuffle ==> deck == old(deck) && currentIndex == old(currentIndex) && pointer == old(pointer)
      ensures 0 <= old(currentIndex) < |queue| ==> currentIndex == old(currentIndex)
    {
      isShuffle := !isShuffle;
      if isShuffle {
        RebuildShuffleDeck(rng);
        SyncShufflePointer();
        if |queue| > 0 {
          SyncFindsCurrent(deck[..], |queue|, old(currentIndex), old(pointer));
        }
      }
    }

    method ToggleRepeat()
      requires Valid()
      modifies this
      ensures Valid()
      ensures repeatMode == NextRepeat(old(repeatMode))
      ensures queue == old(queue) && deck == old(deck) && isShuffle == old(isShuffle)
      ensures currentIndex == old(currentIndex) && pointer == old(pointer)
    {
      repeatMode := match repeatMode
        case Off => All
        case All => One
        case One => Off;
    }

    /** Sets both modes; shuffle on always deals a new deck. */
    method SetModes(shuffle: bool, mode: RepeatMode, rng: seq<nat>)
      requires Valid()
      modifies this
      ensures Valid()
      ensures old(InRange()) ==> InRange()
      ensures isShuffle == shuffle && repeatMode == mode && queue == old(queue)
      ensures shuffle ==> (fresh(deck) && deck[..] == FisherYates(|queue|, rng)
                           && (currentIndex, pointer) == Sync(deck[..], old(currentIndex), old(pointer)))
      ensures !shuffle ==> deck == old(deck) && currentIndex == old(currentIndex) && pointer == old(pointer)
      ensures 0 <= old(currentIndex) < |queue| ==> currentIndex == old(currentIndex)
    {
      isShuffle := shuffle;
      repeatMode := mode;
      if isShuffle {
        RebuildShuffleDeck(rng);
        SyncShufflePointer();
        if |queue| > 0 {
          SyncFindsCurrent(deck[..], |queue|, old(currentIndex), old(pointer));
        }
      }
    }

    /** Removes the song at `index`; an index outside the queue changes nothing. */
    method Remove(index: int, rng: seq<nat>)
      requires Valid()
      modifies this
      ensures Valid()
      ensures old(InRange()) ==> InRange()
      ensures isShuffle == old(isShuffle) && repeatMode == old(repeatMode)
      ensures !(0 <= index < |old(queue)|) ==>
                queue == old(queue) && deck == old(deck)
                && currentIndex == old(currentIndex) && pointer == old(pointer)
      ensures 0 <= index < |old(queue)| ==> queue == RemoveAt(old(queue), index)
      ensures 0 <= index < |old(queue)| && !isShuffle ==>
                currentIndex == RemovedIndex(old(currentIndex), index, |queue|)
                && deck == old(deck) && pointer == old(pointer)
      ensures 0 <= index < |old(queue)| && isShuffle ==>
                fresh(deck) && deck[..] == FisherYates(|queue|, rng)
                && (currentIndex, pointer)
                   == Sync(deck[..], RemovedIndex(old(currentIndex), index, |queue|), old(pointer))
    {
      if index < 0 || index >= |queue| {
        return;
      }
      var removingCurrent := index == currentIndex;
      queue := RemoveAt(queue, index);
      if isShuffle {
        RebuildShuffleDeck(rng);
      }
      if |queue| == 0 {
        currentIndex := -1;
      } else if removingCurrent {
        if currentIndex >= |queue| {
          currentIndex := 0;
        }
      } else if index < currentIndex {
        currentIndex := currentIndex - 1;
      }
      ghost var adjusted := currentIndex;
      assert adjusted == RemovedIndex(old(currentIndex), index, |queue|);
      SyncShufflePointer();
      if isShuffle && |queue| > 0 {
        SyncFindsCurrent(deck[..], |queue|, adjusted, old(pointer));
      }
    }

    /** Moves the song at `oldIndex` to `newIndex`; the current song stays current. */
    method Reorder(oldIndex: int, newIndex: int, rng: seq<nat>)
      requires Valid()
      requires oldIndex == newIndex || (0 <= oldIndex < |queue| && 0 <= newIndex < |queue|)
      modifies this
      ensures Valid()
      ensures old(InRange()) ==> InRange()
      ensures isShuffle == old(isShuffle) && repeatMode == old(repeatMode)
      ensures oldIndex == newIndex ==>
                queue == old(queue) && deck == old(deck)
                && currentIndex == old(currentIndex) && pointer == old(pointer)
      ensures oldIndex != newIndex ==> queue == Moved(old(queue), oldIndex, newIndex)
      ensures oldIndex != newIndex && !isShuffle ==>
                currentIndex == MovedIndex(old(currentIndex), oldIndex, newIndex)
                && deck == old(deck) && pointer == old(pointer)
      ensures oldIndex != newIndex && isShuffle ==>
                fresh(deck) && deck[..] == FisherYates(|queue|, rng)
                && (currentIndex, pointer)
                   == Sync(deck[..], MovedIndex(old(currentIndex), oldIndex, newIndex), old(pointer))
      ensures 0 <= old(currentIndex) < |queue| ==>
                0 <= currentIndex < |queue| && queue[currentIndex] == old(queue)[old(currentIndex)]
    {
      if oldIndex == newIndex {
        return;
      }
      var song := queue[oldIndex];
      queue := InsertAt(RemoveAt(queue, oldIndex), newIndex, song);
      if currentIndex == oldIndex {
        currentIndex := newIndex;
      } else if currentIndex > oldIndex && currentIndex <= newIndex {
        currentIndex := currentIndex - 1;
      } else if currentIndex < oldIndex && currentIndex >= newIndex {
        currentIndex := currentIndex + 1;
      }
      if 0 <= old(currentIndex) < |queue| {
        MovedIndexFollowsSong(old(queue), oldIndex, newIndex, old(currentIndex));
      }
      ghost var adjusted := currentIndex;
      assert adjusted == MovedIndex(old(currentIndex), oldIndex, newIndex);
      if isShuffle {
        RebuildShuffleDeck(rng);
        SyncShufflePointer();
        if |queue| > 0 {
          SyncFindsCurrent(deck[..], |queue|, adjusted, old(pointer));
        }
      }
    }
  }
}
