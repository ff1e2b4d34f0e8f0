// The Iterator pattern: forward and reverse iterators over a playlist, and an
// iterator that hands out a list one page at a time.
module IteratorPattern {
  import opened Wrappers
  import Seqs
  import Text

  datatype Song = Song(title: string, artist: string, duration: int)

  /** `Song.__str__`: the duration shown as minutes and two-digit seconds. */
  function SongText(s: Song): string
  {
    "🎵 " + s.title + " — " + s.artist + " (" + Text.IntToString(s.duration / 60) + ":" + Text.ZeroPad(s.duration % 60, 2) + ")"
  }

  /**
   * For a non-negative duration the text shows minutes, a colon and exactly two
   * digits of seconds, and minutes times 60 plus seconds reads back as the duration.
   */
  lemma {:induction false} SongDurationReadsBack(s: Song)
    requires s.duration >= 0
    ensures var minutes, seconds := Text.NatToString(s.duration / 60), Text.ZeroPad(s.duration % 60, 2);
      SongText(s) == "🎵 " + s.title + " — " + s.artist + " (" + minutes + ":" + seconds + ")" &&
      |seconds| == 2 && Text.IsDigits(minutes) && Text.IsDigits(seconds) &&
      Text.DigitsValue(minutes) * 60 + Text.DigitsValue(seconds) == s.duration
  {
    var sec := s.duration % 60;
    Text.NatToStringRoundTrip(s.duration / 60);
    Text.ZeroPadValue(sec, 2);
    assert |Text.NatToString(sec)| <= 2 by {
      if sec >= 10 {
        assert Text.NatToString(sec) == Text.NatToString(sec / 10) + [Text.DigitChar(sec % 10)];
      }
    }
  }

  /** `Playlist`: iterators hold on to the playlist's own list, so they see songs added later. */
  class Playlist {
    const name: string
    var songs: seq<Song>

    constructor (name: string)
      ensures this.name == name && songs == []
    {
      this.name := name;
      songs := [];
    }

    method AddSong(s: Song)
      modifies this
      ensures songs == old(songs) + [s]
    {
      songs := songs + [s];
    }

    function Length(): (n: nat)
      reads this
      ensures n == |songs|
    {
      |songs|
    }

    /** `__iter__`. */
    method Iterator() returns (it: PlaylistIterator)
      ensures fresh(it) && it.playlist == this && it.index == 0
    {
      it := new PlaylistIterator(this);
    }

    method ReverseIterator() returns (it: ReversePlaylistIterator)
      ensures fresh(it) && it.playlist == this && it.index == |songs| - 1 && it.Valid()
    {
      it := new ReversePlaylistIterator(this);
    }
  }

  class PlaylistIterator {
    const playlist: Playlist
    var index: nat

    constructor (playlist: Playlist)
      ensures this.playlist == playlist && index == 0
    {
      this.playlist := playlist;
      index := 0;
    }

    /** `__next__`; `None` stands for `StopIteration`. */
    method Next() returns (r: Option<Song>)
      modifies this
      ensures old(index) < |playlist.songs| ==> r == Some(playlist.songs[old(index)]) && index == old(index) + 1
      ensures old(index) >= |playlist.songs| ==> r == None && index == old(index)
    {
      if index >= |playlist.songs| {
        r := None;
      } else {
        r := Some(playlist.songs[index]);
        index := index + 1;
      }
    }

    function HasNext(): (b: bool)
      reads this, playlist
      ensures b <==> index < |playlist.songs|
    {
      index < |playlist.songs|
    }
  }

  class ReversePlaylistIterator {
    const playlist: Playlist
    var index: int

    /** The index always points inside the list or just before it; songs are only ever appended. */
    ghost predicate Valid()
      reads this, playlist
    {
      -1 <= index < |playlist.songs|
    }

    constructor (playlist: Playlist)
      ensures this.playlist == playlist && index == |playlist.songs| - 1 && Valid()
    {
      this.playlist := playlist;
      index := |playlist.songs| - 1;
    }

    method Next() returns (r: Option<Song>)
      requires Valid()
      modifies this
      ensures Valid()
      ensures old(index) >= 0 ==> r == Some(playlist.songs[old(index)]) && index == old(index) - 1
      ensures old(index) < 0 ==> r == None && index == old(index)
    {
      if index < 0 {
        r := None;
      } else {
        r := Some(playlist.songs[index]);
        index := index - 1;
      }
    }
  }

  /** `for song in playlist`: a forward iterator yields the rest of the list in order. */
  method CollectForward(it: PlaylistIterator) returns (out: seq<Song>)
    modifies it
    ensures out == if old(it.index) < |it.playlist.songs| then it.playlist.songs[old(it.index)..] else []
    ensures !it.HasNext()
  {
    out := [];
    var r := it.Next();
    while r.Some?
      invariant it.playlist.songs == old(it.playlist.songs)
      invariant old(it.index) <= it.index <= |it.playlist.songs| || (it.index == old(it.index) && out == [] && r.None?)
      invariant r.Some? ==> old(it.index) < it.index && r.value == it.playlist.songs[it.index - 1]
      invariant r.Some? ==> out == it.playlist.songs[old(it.index)..it.index - 1]
      invariant r.None? ==> out == (if old(it.index) < |it.playlist.songs| then it.playlist.songs[old(it.index)..] else [])
      invariant r.None? ==> it.index >= |it.playlist.songs|
      decreases |it.playlist.songs| - it.index, r.Some?
    {
      out := out + [r.value];
      r := it.Next();
    }
  }

  /** Iterating a reverse iterator to the end yields the list backwards. */
  method CollectReverse(it: ReversePlaylistIterator) returns (out: seq<Song>)
    requires it.Valid()
    modifies it
    ensures out == Seqs.Reverse(it.playlist.songs[..old(it.index) + 1])
  {
    ghost var songs := it.playlist.songs;
    ghost var start := it.index;
    out := [];
    var r := it.Next();
    while r.Some?
      invariant it.Valid() && it.playlist.songs == songs
      invariant r.Some? ==> 0 <= it.index + 1 <= start && r.value == songs[it.index + 1]
      invariant r.Some? ==> |out| == start - it.index - 1
      invariant r.None? ==> it.index == -1 && |out| == start + 1
      invariant forall k :: 0 <= k < |out| ==> out[k] == songs[start - k]
      decreases it.index + 1, r.Some?
    {
      out := out + [r.value];
      r := it.Next();
    }
    forall k | 0 <= k < |out| ensures out[k] == Seqs.Reverse(songs[..start + 1])[k] {
      Seqs.ReverseAt(songs[..start + 1], k);
    }
  }

  // ---------------------------------------------------------------------
  // Pagination
  // ---------------------------------------------------------------------

  /** `total_pages`: `-(-n // size)`, ceiling division written with floor division. */
  function TotalPages(n: nat, size: int): (pages: int)
    requires size > 0
    ensures pages >= 0
    ensures n == 0 ==> pages == 0
    ensures n > 0 ==> (pages - 1) * size < n <= pages * size
  {
    var neg: int := -(n as int);
    var q := neg / size;
    var m := neg % size;
    assert neg == q * size + m && 0 <= m < size;
    assert -q * size == n + m;
    assert (-q - 1) * size == n + m - size;
    -q
  }

  /** The pages, in order: full pages of `size` items and a shorter last page. */
  function Pages<T>(items: seq<T>, size: int): (ps: seq<seq<T>>)
    requires size > 0
    ensures forall k :: 0 <= k < |ps| ==> 0 < |ps[k]| <= size
    decreases |items|
  {
    if |items| == 0 then []
    else if |items| <= size then [items]
    else [items[..size]] + Pages(items[size..], size)
  }

  /** Reading the pages one after the other gives back every item, in order. */
  lemma {:induction false} PagesFlatten<T>(items: seq<T>, size: int)
    requires size > 0
    ensures Seqs.Flatten(Pages(items, size)) == items
    decreases |items|
  {
    if |items| > size {
      PagesFlatten(items[size..], size);
      assert Pages(items, size)[1..] == Pages(items[size..], size);
      assert items == items[..size] + items[size..];
    }
  }

  /** There are as many pages as `total_pages` says. */
  lemma {:induction false} PagesCount<T>(items: seq<T>, size: int)
    requires size > 0
    ensures |Pages(items, size)| == TotalPages(|items|, size)
    decreases |items|
  {
    var n := |items|;
    var p := |Pages(items, size)|;
    PagesBound(items, size);
    var t := TotalPages(n, size);
    if n > 0 {
      if p < t {
        assert p <= t - 1;
        MulMonotone(p, t - 1, size);
      } else if p > t {
        MulMonotone(t, p - 1, size);
      }
    }
  }

  lemma {:induction false} PagesBound<T>(items: seq<T>, size: int)
    requires size > 0
    ensures |items| == 0 ==> |Pages(items, size)| == 0
    ensures |items| > 0 ==> (|Pages(items, size)| - 1) * size < |items| <= |Pages(items, size)| * size
    decreases |items|
  {
    if |items| > size {
      PagesBound(items[size..], size);
      var p := |Pages(items[size..], size)|;
      assert |Pages(items, size)| == p + 1;
      assert (p + 1) * size == p * size + size;
    }
  }

  lemma MulMonotone(a: int, b: int, k: int)
    requires a <= b && k > 0
    ensures a * k <= b * k
  {
    assert b * k - a * k == (b - a) * k;
  }

  /** The `k`-th page is the slice `items[start : min(start + size, n)]`, `start = k * size`, that `__next__` returns. */
  lemma {:induction false} PageIsSlice<T>(items: seq<T>, size: int, k: nat, start: int)
    requires size > 0 && start == k * size && start < |items|
    ensures k < |Pages(items, size)|
    ensures Pages(items, size)[k] == items[start..if start + size < |items| then start + size else |items|]
    decreases k
  {
    if k > 0 {
      assert start - size == (k - 1) * size;
      MulMonotone(0, k - 1, size);
      var rest := items[size..];
      var end := if start + size < |items| then start + size else |items|;
      PageIsSlice(rest, size, k - 1, start - size);
      assert Pages(items, size) == [items[..size]] + Pages(rest, size);
      assert rest[start - size..end - size] == items[start..end];
    }
  }

  /** `PaginatedIterator`. A page size of at least one is assumed. */
  class PaginatedIterator<T> {
    const items: seq<T>
    const pageSize: int
    var currentPage: nat

    constructor (items: seq<T>, pageSize: int)
      requires pageSize > 0
      ensures this.items == items && this.pageSize == pageSize && currentPage == 0
    {
      this.items := items;
      this.pageSize := pageSize;
      currentPage := 0;
    }

    /** `__next__`: the next page, or `None` (`StopIteration`) once the items run out. */
    method Next() returns (page: Option<seq<T>>)
      requires pageSize > 0
      modifies this
      ensures old(currentPage) * pageSize >= |items| ==> page.None? && currentPage == old(currentPage)
      ensures old(currentPage) * pageSize < |items| ==>
        old(currentPage) < |Pages(items, pageSize)| &&
        page == Some(Pages(items, pageSize)[old(currentPage)]) && currentPage == old(currentPage) + 1
    {
      var start := currentPage * pageSize;
      if start >= |items| {
        page := None;
      } else {
        var end := if start + pageSize < |items| then start + pageSize else |items|;
        PageIsSlice(items, pageSize, currentPage, start);
        page := Some(items[start..end]);
        currentPage := currentPage + 1;
      }
    }

    function TotalPagesOf(): (pages: int)
      reads this
      requires pageSize > 0
      ensures pages == |Pages(items, pageSize)|
    {
      PagesCount(items, pageSize);
      TotalPages(|items|, pageSize)
    }
  }

  /** `for page in PaginatedIterator(items, size)`: the pages, which together are every item in order. */
  method CollectPages<T>(it: PaginatedIterator<T>) returns (out: seq<seq<T>>)
    requires it.pageSize > 0 && it.currentPage == 0
    modifies it
    ensures out == Pages(it.items, it.pageSize)
    ensures Seqs.Flatten(out) == it.items
  {
    var all := Pages(it.items, it.pageSize);
    PagesBound(it.items, it.pageSize);
    out := [];
    var page := it.Next();
    while page.Some?
      invariant it.pageSize > 0 && all == Pages(it.items, it.pageSize)
      invariant 0 < it.currentPage <= |all| || (page.None? && it.currentPage == 0)
      invariant page.Some? ==> page.value == all[it.currentPage - 1] && out == all[..it.currentPage - 1]
      invariant page.None? ==> it.currentPage * it.pageSize >= |it.items| && out == all[..it.currentPage]
      decreases |all| - it.currentPage, page.Some?
    {
      out := out + [page.value];
      page := it.Next();
    }
    if it.currentPage < |all| {
      MulMonotone(it.currentPage, |all| - 1, it.pageSize);
    }
    PagesFlatten(it.items, it.pageSize);
  }
}
