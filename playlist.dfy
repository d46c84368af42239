/**
 * The playlist as a value: which files of a folder listing become tracks,
 * and how the current index moves forwards and backwards through them.
 */
module Playlist {
  import opened Paths

  /** The one extension the player accepts. */
  const Mp3Suffix: string := ".mp3"

  predicate IsMp3(file: string): (mp3: bool)
    ensures mp3 <==> 4 <= |file| && file == file[..|file| - 4] + ".mp3"
  {
    EndsWith(file, Mp3Suffix)
  }

  /**
   * The listing entries that `load_music` appends to the playlist, in
   * listing order: exactly the entries whose name ends in ".mp3".
   */
  function Mp3Files(listing: seq<string>): (tracks: seq<string>)
    ensures |tracks| <= |listing|
    ensures forall f :: f in tracks <==> f in listing && IsMp3(f)
  {
    if listing == [] then []
    else
      var init, last := listing[..|listing| - 1], listing[|listing| - 1];
      assert listing == init + [last];
      Mp3Files(init) + (if IsMp3(last) then [last] else [])
  }

  /** Filtering a concatenated listing filters each part and keeps their order. */
  lemma {:induction false} Mp3FilesAppend(a: seq<string>, b: seq<string>)
    ensures Mp3Files(a + b) == Mp3Files(a) + Mp3Files(b)
  {
    if b == [] {
      assert a + b == a;
    } else {
      var init, last := b[..|b| - 1], b[|b| - 1];
      assert (a + b)[..|a + b| - 1] == a + init;
      assert (a + b)[|a + b| - 1] == last;
      Mp3FilesAppend(a, init);
    }
  }

  /** Every ".mp3" entry is kept as often as it is listed; nothing else is kept. */
  lemma {:induction false} Mp3FilesCounts(listing: seq<string>, f: string)
    ensures multiset(Mp3Files(listing))[f] == if IsMp3(f) then multiset(listing)[f] else 0
  {
    if listing != [] {
      var init, last := listing[..|listing| - 1], listing[|listing| - 1];
      assert listing == init + [last];
      Mp3FilesCounts(init, f);
    }
  }

  /** The playlist is empty exactly when no listing entry is an ".mp3" file. */
  lemma Mp3FilesEmpty(listing: seq<string>)
    ensures Mp3Files(listing) == [] <==> forall k :: 0 <= k < |listing| ==> !IsMp3(listing[k])
  {
  }

  /** A listing made only of ".mp3" entries becomes the playlist unchanged. */
  lemma {:induction false} Mp3FilesKeepsMp3Listing(listing: seq<string>)
    requires forall k :: 0 <= k < |listing| ==> IsMp3(listing[k])
    ensures Mp3Files(listing) == listing
  {
    if listing != [] {
      var init := listing[..|listing| - 1];
      assert listing == init + [listing[|listing| - 1]];
      Mp3FilesKeepsMp3Listing(init);
    }
  }

  /** Listing order is kept, not sorted: ["b.mp3", "a.mp3"] stays as it is. */
  lemma ListingOrderIsKept()
    ensures Mp3Files(["b.mp3", "a.mp3"]) == ["b.mp3", "a.mp3"]
  {
  }

  /** The suffix test is case-sensitive and looks at the very end of the name only. */
  lemma SuffixMatchIsExact()
    ensures !IsMp3("A.MP3") && !IsMp3("song.mp3.bak") && !IsMp3("mp3") && IsMp3(".mp3")
  {
  }

  /**
   * The index `next_track` moves to: `(i + 1) % n`. Python's `%` and
   * Dafny's agree when the divisor is positive (both are non-negative).
   */
  function NextIndex(i: int, n: int): (j: int)
    requires n > 0
    ensures 0 <= j < n
    ensures 0 <= i < n ==> j == if i == n - 1 then 0 else i + 1
  {
    (i + 1) % n
  }

  /** The index `prev_track` moves to: `(i - 1) % n`, so 0 goes to n - 1. */
  function PrevIndex(i: int, n: int): (j: int)
    requires n > 0
    ensures 0 <= j < n
    ensures 0 <= i < n ==> j == if i == 0 then n - 1 else i - 1
  {
    (i - 1) % n
  }

  /** Moving back undoes moving forward, and the other way round. */
  lemma PrevUndoesNext(i: int, n: int)
    requires 0 <= i < n
    ensures PrevIndex(NextIndex(i, n), n) == i
    ensures NextIndex(PrevIndex(i, n), n) == i
  {
  }

  /** The index reached from i by k steps of `NextIndex`. */
  function Advance(i: int, n: int, k: nat): (j: int)
    requires 0 <= i < n
    ensures 0 <= j < n
  {
    if k == 0 then i else NextIndex(Advance(i, n, k - 1), n)
  }

  /** Before the end of the playlist is reached, k steps add k. */
  lemma {:induction false} AdvanceWithoutWrap(i: int, n: int, k: nat)
    requires 0 <= i < n && i + k < n
    ensures Advance(i, n, k) == i + k
  {
    if k > 0 {
      AdvanceWithoutWrap(i, n, k - 1);
    }
  }

  /** Stepping a + b times is stepping a times, then b times. */
  lemma {:induction false} AdvanceAdd(i: int, n: int, a: nat, b: nat)
    requires 0 <= i < n
    ensures Advance(i, n, a + b) == Advance(Advance(i, n, a), n, b)
  {
    if b > 0 {
      AdvanceAdd(i, n, a, b - 1);
    }
  }

  /** Calling `next_track` as many times as there are tracks returns to the start. */
  lemma {:induction false} AdvanceCycle(i: int, n: int)
    requires 0 <= i < n
    ensures Advance(i, n, n) == i
  {
    AdvanceWithoutWrap(i, n, n - i - 1);
    assert Advance(i, n, n - i) == 0;
    AdvanceAdd(i, n, n - i, i);
    if i > 0 {
      AdvanceWithoutWrap(0, n, i);
    }
  }
}
