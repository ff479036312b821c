/** The playlist rebalancer of index.ts (lines 26-42 of `main`), lifted out of
    the Spotify client calls: from the source playlist's items and the
    complement playlist's items it computes the URIs written to the new
    playlist and the dominant (most frequent primary) artist.

    Every item's `track.artists[0]` is read unconditionally, so every track
    is required to have at least one artist. */
module Rebalancer {
  import opened Wrappers
  import opened Frequency

  /** A playlist item: the track's URI and its artists' ids, primary first. */
  datatype Track = Track(uri: string, artists: seq<string>)

  /** The result of a run: the URIs to write and the dominant artist
      (None where the source has `null`). */
  datatype Rebalanced = Rebalanced(uris: seq<string>, dominant: Option<string>)

  /** The size of the playlist the backfill tops up to. */
  const Capacity := 50

  predicate HasArtist(t: Track)
  {
    |t.artists| > 0
  }

  predicate AllHaveArtist(ts: seq<Track>)
  {
    forall i :: 0 <= i < |ts| ==> HasArtist(ts[i])
  }

  /** `track.artists[0].id` */
  function Primary(t: Track): string
    requires HasArtist(t)
  {
    t.artists[0]
  }

  /** `items.map((i) => i.track.artists[0].id)` */
  function ArtistIds(items: seq<Track>): (ids: seq<string>)
    requires AllHaveArtist(items)
    ensures |ids| == |items|
    ensures forall i :: 0 <= i < |items| ==> ids[i] == Primary(items[i])
  {
    seq(|items|, i requires 0 <= i < |items| => Primary(items[i]))
  }

  /** `.map((i) => i.track.uri)` */
  function Uris(ts: seq<Track>): (us: seq<string>)
    ensures |us| == |ts|
    ensures forall i :: 0 <= i < |ts| ==> us[i] == ts[i].uri
  {
    seq(|ts|, i requires 0 <= i < |ts| => ts[i].uri)
  }

  /** `s.slice(0, n)` for a non-negative `n`. */
  function Take<T>(s: seq<T>, n: nat): (r: seq<T>)
    ensures |r| == if n <= |s| then n else |s|
    ensures r == s[..|r|]
  {
    if n <= |s| then s[..n] else s
  }

  /** `sub` is `s` at the strictly increasing positions `idx`. */
  ghost predicate SelectedAt<T>(sub: seq<T>, s: seq<T>, idx: seq<int>)
  {
    && |idx| == |sub|
    && (forall k :: 0 <= k < |idx| ==> 0 <= idx[k] < |s| && sub[k] == s[idx[k]])
    && (forall k, l :: 0 <= k < l < |idx| ==> idx[k] < idx[l])
  }

  // ---------------------------------------------------------------------
  // Suppression of the dominant artist (index.ts:27-28, 31-35)

  /** The dominant artist: `mostFrequent(artistIds)`. */
  function MostFrequentArtist(items: seq<Track>): (d: Option<string>)
    requires AllHaveArtist(items)
    ensures d.None? <==> |items| == 0
    ensures d.Some? ==> IsMode(ArtistIds(items), d.value)
  {
    Mode(ArtistIds(items))
  }

  /** `items.findIndex((s) => s.track.artists[0].id === mostFrequentArtist)`;
      no id is strictly equal to `null`. */
  function TopSongIndex(items: seq<Track>): (top: int)
    requires AllHaveArtist(items)
    ensures top == -1 <==> |items| == 0
    ensures top != -1 ==> 0 <= top < |items| && Some(Primary(items[top])) == MostFrequentArtist(items)
    ensures top != -1 ==> forall j :: 0 <= j < top ==> Some(Primary(items[j])) != MostFrequentArtist(items)
  {
    match MostFrequentArtist(items)
    case None => -1
    case Some(a) => IndexOf(ArtistIds(items), a)
  }

  /** The filter's test for the item `t` at position `i`: it is dropped when
      it is not the top song and is by the dominant artist. */
  predicate Kept(t: Track, i: int, dominant: Option<string>, top: int)
    requires HasArtist(t)
  {
    i == top || Some(Primary(t)) != dominant
  }

  /** `items.filter(({ track }, i) => ...)`: the items the test keeps, in order. */
  function Suppress(items: seq<Track>, dominant: Option<string>, top: int): (kept: seq<Track>)
    requires AllHaveArtist(items)
    ensures |kept| <= |items|
  {
    if |items| == 0 then []
    else
      var n := |items| - 1;
      Suppress(items[..n], dominant, top) + (if Kept(items[n], n, dominant, top) then [items[n]] else [])
  }

  /** The positions `Suppress` keeps. */
  ghost function KeptPositions(items: seq<Track>, dominant: Option<string>, top: int): seq<int>
    requires AllHaveArtist(items)
  {
    if |items| == 0 then []
    else
      var n := |items| - 1;
      KeptPositions(items[..n], dominant, top) + (if Kept(items[n], n, dominant, top) then [n] else [])
  }

  /** `newItems` */
  function NewItems(items: seq<Track>): (kept: seq<Track>)
    requires AllHaveArtist(items)
    ensures |kept| <= |items|
    ensures |items| > 0 ==> ByArtist(kept, MostFrequentArtist(items).value) == [items[TopSongIndex(items)]]
  {
    var d, top := MostFrequentArtist(items), TopSongIndex(items);
    if d.Some? then
      SuppressLeavesTopOnly(items, d.value, top);
      Suppress(items, d, top)
    else
      Suppress(items, d, top)
  }

  // ---------------------------------------------------------------------
  // Backfill from the complement playlist (index.ts:30, 36-42)

  /** The filter's test for a complement item: its artist is nowhere in the
      source and is not the dominant artist. */
  predicate Unique(t: Track, artistIds: seq<string>, dominant: Option<string>)
    requires HasArtist(t)
  {
    Primary(t) !in artistIds && Some(Primary(t)) != dominant
  }

  /** `cItems.filter((i) => ...)`: the complement items the test keeps, in order. */
  function UniqueComplement(cItems: seq<Track>, artistIds: seq<string>, dominant: Option<string>): (u: seq<Track>)
    requires AllHaveArtist(cItems)
    ensures |u| <= |cItems|
    ensures forall k :: 0 <= k < |u| ==> HasArtist(u[k]) && Unique(u[k], artistIds, dominant)
  {
    if |cItems| == 0 then []
    else
      var n := |cItems| - 1;
      UniqueComplement(cItems[..n], artistIds, dominant) + (if Unique(cItems[n], artistIds, dominant) then [cItems[n]] else [])
  }

  /** The positions `UniqueComplement` keeps. */
  ghost function UniquePositions(cItems: seq<Track>, artistIds: seq<string>, dominant: Option<string>): seq<int>
    requires AllHaveArtist(cItems)
  {
    if |cItems| == 0 then []
    else
      var n := |cItems| - 1;
      UniquePositions(cItems[..n], artistIds, dominant) + (if Unique(cItems[n], artistIds, dominant) then [n] else [])
  }

  /** `uniqueCItems` */
  function UniqueCItems(items: seq<Track>, cItems: seq<Track>): (u: seq<Track>)
    requires AllHaveArtist(items) && AllHaveArtist(cItems)
    ensures forall k :: 0 <= k < |u| ==> HasArtist(u[k]) && Primary(u[k]) !in ArtistIds(items)
  {
    UniqueComplement(cItems, ArtistIds(items), MostFrequentArtist(items))
  }

  /** The complement items appended: `uniqueCItems.slice(0, addTr)` when
      `addTr = 50 - uris.length` is not negative, none otherwise. */
  function Backfill(items: seq<Track>, cItems: seq<Track>): (b: seq<Track>)
    requires AllHaveArtist(items) && AllHaveArtist(cItems)
    ensures var n, u := |NewItems(items)|, UniqueCItems(items, cItems);
      && |b| <= |u|
      && b == u[..|b|]
      && (n <= Capacity ==> |b| == if Capacity - n <= |u| then Capacity - n else |u|)
      && (n > Capacity ==> b == [])
  {
    var u := UniqueCItems(items, cItems);
    var addTr := Capacity - |NewItems(items)|;
    if addTr >= 0 then Take(u, addTr) else assert u[..0] == []; []
  }

  /** Lines 26-42 of `main`: the URIs written to the new playlist and the
      dominant artist looked up afterwards. */
  function Rebalance(items: seq<Track>, cItems: seq<Track>): (r: Rebalanced)
    requires AllHaveArtist(items) && AllHaveArtist(cItems)
    ensures r.dominant.None? <==> |items| == 0
    ensures r.dominant.Some? ==> IsMode(ArtistIds(items), r.dominant.value)
    ensures r.uris == Uris(NewItems(items) + Backfill(items, cItems))
  {
    UrisAppend(NewItems(items), Backfill(items, cItems));
    var uris := Uris(NewItems(items));
    Rebalanced(uris + Uris(Backfill(items, cItems)), MostFrequentArtist(items))
  }

  // ---------------------------------------------------------------------
  // Helpers

  lemma UrisAppend(x: seq<Track>, y: seq<Track>)
    ensures Uris(x + y) == Uris(x) + Uris(y)
  {
    assert forall k :: 0 <= k < |x + y| ==> Uris(x + y)[k] == (Uris(x) + Uris(y))[k];
  }

  /** Whether `a` is the primary artist of `t`. */
  predicate IsBy(t: Track, a: string)
  {
    HasArtist(t) && Primary(t) == a
  }

  /** The tracks of `ts` whose primary artist is `a`, in order. */
  function ByArtist(ts: seq<Track>, a: string): seq<Track>
  {
    if |ts| == 0 then []
    else
      var n := |ts| - 1;
      ByArtist(ts[..n], a) + (if IsBy(ts[n], a) then [ts[n]] else [])
  }

  lemma {:induction false} ByArtistAppend(x: seq<Track>, y: seq<Track>, a: string)
    ensures ByArtist(x + y, a) == ByArtist(x, a) + ByArtist(y, a)
  {
    if |y| > 0 {
      var n := |y| - 1;
      assert (x + y)[..|x| + n] == x + y[..n];
      ByArtistAppend(x, y[..n], a);
    } else {
      assert x + y == x;
    }
  }

  lemma ByArtistSingle(t: Track, a: string)
    ensures ByArtist([t], a) == if IsBy(t, a) then [t] else []
  {
    assert [t][..0] == [];
  }

  lemma {:induction false} ByArtistNone(ts: seq<Track>, a: string)
    requires forall i :: 0 <= i < |ts| ==> !IsBy(ts[i], a)
    ensures ByArtist(ts, a) == []
  {
    if |ts| > 0 {
      ByArtistNone(ts[..|ts| - 1], a);
    }
  }

  lemma {:induction false} UniqueComplementAll(cItems: seq<Track>, artistIds: seq<string>, dominant: Option<string>)
    requires AllHaveArtist(cItems)
    requires forall i :: 0 <= i < |cItems| ==> Unique(cItems[i], artistIds, dominant)
    ensures UniqueComplement(cItems, artistIds, dominant) == cItems
  {
    if |cItems| > 0 {
      var n := |cItems| - 1;
      UniqueComplementAll(cItems[..n], artistIds, dominant);
      assert cItems == cItems[..n] + [cItems[n]];
    }
  }

  lemma {:induction false} UniqueComplementSameTest(cItems: seq<Track>, artistIds: seq<string>, d: Option<string>, d': Option<string>)
    requires AllHaveArtist(cItems)
    requires forall i :: 0 <= i < |cItems| ==> (Unique(cItems[i], artistIds, d) <==> Unique(cItems[i], artistIds, d'))
    ensures UniqueComplement(cItems, artistIds, d) == UniqueComplement(cItems, artistIds, d')
  {
    if |cItems| > 0 {
      UniqueComplementSameTest(cItems[..|cItems| - 1], artistIds, d, d');
    }
  }

  // ---------------------------------------------------------------------
  // Properties

  /** Extending `s` by one element, and the selection by that element or by
      nothing, keeps it an order-preserving selection. */
  lemma SelectedAtSnoc<T>(sub: seq<T>, s: seq<T>, idx: seq<int>, x: T, keep: bool)
    requires SelectedAt(sub, s, idx)
    ensures SelectedAt(sub + (if keep then [x] else []), s + [x], idx + (if keep then [|s|] else []))
  {
    var s' := s + [x];
    assert forall k :: 0 <= k < |s| ==> s'[k] == s[k];
  }

  /** The filter keeps an order-preserving selection of `items`: exactly the
      top song and the tracks not by the dominant artist. */
  lemma {:induction false} SuppressSelects(items: seq<Track>, dominant: Option<string>, top: int)
    requires AllHaveArtist(items)
    ensures SelectedAt(Suppress(items, dominant, top), items, KeptPositions(items, dominant, top))
    ensures forall i :: 0 <= i < |items| ==>
      (i in KeptPositions(items, dominant, top) <==> Kept(items[i], i, dominant, top))
  {
    if |items| > 0 {
      var n := |items| - 1;
      var p := items[..n];
      SuppressSelects(p, dominant, top);
      assert items == p + [items[n]];
      var keep := Kept(items[n], n, dominant, top);
      SelectedAtSnoc(Suppress(p, dominant, top), p, KeptPositions(p, dominant, top), items[n], keep);
      var q := KeptPositions(p, dominant, top);
      var last := if keep then [n] else [];
      assert KeptPositions(items, dominant, top) == q + last;
      forall i | 0 <= i < |items|
        ensures i in q + last <==> Kept(items[i], i, dominant, top)
      {
        if i < n {
          assert p[i] == items[i];
        } else {
          assert forall k :: 0 <= k < |q| ==> q[k] < n;
        }
      }
    }
  }

  /** The backfill pool is an order-preserving selection of the complement:
      exactly the tracks that pass the uniqueness test. */
  lemma {:induction false} UniqueComplementSelects(cItems: seq<Track>, artistIds: seq<string>, dominant: Option<string>)
    requires AllHaveArtist(cItems)
    ensures SelectedAt(UniqueComplement(cItems, artistIds, dominant), cItems, UniquePositions(cItems, artistIds, dominant))
    ensures forall i :: 0 <= i < |cItems| ==>
      (i in UniquePositions(cItems, artistIds, dominant) <==> Unique(cItems[i], artistIds, dominant))
  {
    if |cItems| > 0 {
      var n := |cItems| - 1;
      var p := cItems[..n];
      UniqueComplementSelects(p, artistIds, dominant);
      assert cItems == p + [cItems[n]];
      var keep := Unique(cItems[n], artistIds, dominant);
      SelectedAtSnoc(UniqueComplement(p, artistIds, dominant), p, UniquePositions(p, artistIds, dominant), cItems[n], keep);
      var q := UniquePositions(p, artistIds, dominant);
      var last := if keep then [n] else [];
      assert UniquePositions(cItems, artistIds, dominant) == q + last;
      forall i | 0 <= i < |cItems|
        ensures i in q + last <==> Unique(cItems[i], artistIds, dominant)
      {
        if i < n {
          assert p[i] == cItems[i];
        } else {
          assert forall k :: 0 <= k < |q| ==> q[k] < n;
        }
      }
    }
  }

  /** Of the dominant artist's tracks the filter keeps the top song alone. */
  lemma {:induction false} SuppressLeavesTopOnly(items: seq<Track>, a: string, top: int)
    requires AllHaveArtist(items)
    ensures ByArtist(Suppress(items, Some(a), top), a) ==
      if 0 <= top < |items| && Primary(items[top]) == a then [items[top]] else []
  {
    if |items| > 0 {
      var n := |items| - 1;
      var p := items[..n];
      var s := Suppress(p, Some(a), top);
      var last := if Kept(items[n], n, Some(a), top) then [items[n]] else [];
      assert Suppress(items, Some(a), top) == s + last;
      ByArtistAppend(s, last, a);
      assert ByArtist(last, a) == if n == top && Primary(items[n]) == a then [items[n]] else [] by {
        ByArtistSingle(items[n], a);
      }
      assert ByArtist(s, a) == if 0 <= top < n && Primary(items[top]) == a then [items[top]] else [] by {
        SuppressLeavesTopOnly(p, a, top);
        if 0 <= top < n {
          assert p[top] == items[top];
        }
      }
      assert [] + [items[n]] == [items[n]];
      if 0 <= top < n {
        assert [items[top]] + [] == [items[top]];
      }
    }
  }

  /** For a non-empty source the top song is the dominant artist's first
      track, and it is that artist's only track left in `newItems`. */
  lemma NewItemsKeepFirstDominantTrack(items: seq<Track>)
    requires AllHaveArtist(items) && |items| > 0
    ensures MostFrequentArtist(items).Some?
    ensures var a, top := MostFrequentArtist(items).value, TopSongIndex(items);
      && 0 <= top < |items| && Primary(items[top]) == a
      && (forall j :: 0 <= j < top ==> Primary(items[j]) != a)
      && ByArtist(NewItems(items), a) == [items[top]]
  {
    var ids := ArtistIds(items);
    ModeCharacterization(ids);
    var a := MostFrequentArtist(items).value;
    var top := TopSongIndex(items);
    assert a in ids;
    assert top == IndexOf(ids, a);
    assert ids[top] == Primary(items[top]);
    forall j | 0 <= j < top
      ensures Primary(items[j]) != a
    {
      assert ids[j] == Primary(items[j]);
    }
    SuppressLeavesTopOnly(items, a, top);
  }

  /** The uniqueness test's comparison with the dominant artist never decides:
      the pool is exactly the complement tracks whose artist is absent from
      the source. */
  lemma UniqueCItemsIgnoreDominant(items: seq<Track>, cItems: seq<Track>)
    requires AllHaveArtist(items) && AllHaveArtist(cItems)
    ensures UniqueCItems(items, cItems) == UniqueComplement(cItems, ArtistIds(items), None)
  {
    var ids := ArtistIds(items);
    ModeCharacterization(ids);
    UniqueComplementSameTest(cItems, ids, MostFrequentArtist(items), None);
  }

  /** The appended tracks are the first ones of the pool, so they come from
      the complement in its order, and none is by an artist of the source
      (the dominant one included). */
  lemma BackfillFromComplement(items: seq<Track>, cItems: seq<Track>)
    requires AllHaveArtist(items) && AllHaveArtist(cItems)
    ensures var b, u := Backfill(items, cItems), UniqueCItems(items, cItems);
      var pos := UniquePositions(cItems, ArtistIds(items), MostFrequentArtist(items));
      && b == u[..|b|]
      && |b| <= |pos|
      && SelectedAt(b, cItems, pos[..|b|])
      && (forall k :: 0 <= k < |b| ==> HasArtist(b[k]) && Primary(b[k]) !in ArtistIds(items))
      && (forall k :: 0 <= k < |b| ==> Some(Primary(b[k])) != MostFrequentArtist(items))
  {
    var ids, d := ArtistIds(items), MostFrequentArtist(items);
    var u := UniqueComplement(cItems, ids, d);
    assert UniqueCItems(items, cItems) == u;
    var addTr := Capacity - |NewItems(items)|;
    var m := if addTr >= 0 then addTr else 0;
    assert Backfill(items, cItems) == Take(u, m);
    PoolPrefixSelects(cItems, ids, d, m);
  }

  /** A prefix of the pool is taken from `cItems` in order, and each of its
      tracks passes the uniqueness test. */
  lemma PoolPrefixSelects(cItems: seq<Track>, ids: seq<string>, d: Option<string>, n: nat)
    requires AllHaveArtist(cItems)
    ensures var u := UniqueComplement(cItems, ids, d);
      var b := Take(u, n);
      var pos := UniquePositions(cItems, ids, d);
      && b == u[..|b|]
      && |b| <= |pos|
      && SelectedAt(b, cItems, pos[..|b|])
      && (forall k :: 0 <= k < |b| ==> HasArtist(b[k]) && Primary(b[k]) !in ids)
      && (forall k :: 0 <= k < |b| ==> Some(Primary(b[k])) != d)
  {
    var u := UniqueComplement(cItems, ids, d);
    var b := Take(u, n);
    var pos := UniquePositions(cItems, ids, d);
    UniqueComplementSelects(cItems, ids, d);
    forall k | 0 <= k < |b|
      ensures HasArtist(b[k]) && Primary(b[k]) !in ids && Some(Primary(b[k])) != d
    {
      assert b[k] == u[k] == cItems[pos[k]];
    }
  }

  /** `uris` starts with the URIs of `newItems`; up to 50 it is topped up
      with as many pool tracks as fit or exist, and beyond 50 it is left as
      it is, never cut. */
  lemma RebalanceLength(items: seq<Track>, cItems: seq<Track>)
    requires AllHaveArtist(items) && AllHaveArtist(cItems)
    ensures var r, n, u := Rebalance(items, cItems), |NewItems(items)|, |UniqueCItems(items, cItems)|;
      && n <= |r.uris|
      && r.uris[..n] == Uris(NewItems(items))
      && (n <= Capacity ==> |r.uris| == n + (if Capacity - n <= u then Capacity - n else u) <= Capacity)
      && (n > Capacity ==> r.uris == Uris(NewItems(items)))
  {
    var b := Backfill(items, cItems);
    UrisAppend(NewItems(items), b);
  }

  /** The written playlist holds exactly one track by the dominant artist:
      the artist's first track in the source. */
  lemma RebalanceOneDominantTrack(items: seq<Track>, cItems: seq<Track>)
    requires AllHaveArtist(items) && AllHaveArtist(cItems) && |items| > 0
    ensures var a := Rebalance(items, cItems).dominant.value;
      ByArtist(NewItems(items) + Backfill(items, cItems), a) == [items[TopSongIndex(items)]]
  {
    NewItemsKeepFirstDominantTrack(items);
    var a := MostFrequentArtist(items).value;
    BackfillFromComplement(items, cItems);
    ByArtistAppend(NewItems(items), Backfill(items, cItems), a);
    ByArtistNone(Backfill(items, cItems), a);
  }

  /** With an empty source there is no dominant artist, nothing is filtered
      out of the complement, and its first 50 tracks are written. */
  lemma RebalanceEmptySource(cItems: seq<Track>)
    requires AllHaveArtist(cItems)
    ensures Rebalance([], cItems) == Rebalanced(Uris(Take(cItems, Capacity)), None)
  {
    var none: seq<Track> := [];
    assert ArtistIds(none) == [];
    assert MostFrequentArtist(none) == None;
    assert UniqueCItems(none, cItems) == cItems by {
      UniqueComplementAll(cItems, [], None);
    }
    assert NewItems(none) == [];
    assert Backfill(none, cItems) == Take(cItems, Capacity);
    assert NewItems(none) + Backfill(none, cItems) == Take(cItems, Capacity);
  }

  /** With an empty complement nothing is appended: the run writes exactly
      the URIs of the filtered source list. */
  lemma RebalanceNoComplement(items: seq<Track>)
    requires AllHaveArtist(items)
    ensures Rebalance(items, []).uris == Uris(NewItems(items))
  {
    assert Backfill(items, []) == [];
    assert NewItems(items) + [] == NewItems(items);
  }

  /** Each suppressed track is one of the artist's tracks other than the top
      song, so the filter shortens the list by exactly that many. */
  lemma {:induction false} SuppressLength(items: seq<Track>, a: string, top: int)
    requires AllHaveArtist(items)
    ensures |Suppress(items, Some(a), top)| + |ByArtist(items, a)| ==
      |items| + (if 0 <= top < |items| && Primary(items[top]) == a then 1 else 0)
  {
    if |items| > 0 {
      var n := |items| - 1;
      SuppressLength(items[..n], a, top);
      if 0 <= top < n {
        assert items[..n][top] == items[top];
      }
    }
  }

  /** The number of tracks by `a` is the number of times `a` occurs among
      the primary artist ids. */
  lemma {:induction false} ByArtistCount(items: seq<Track>, a: string)
    requires AllHaveArtist(items)
    ensures |ByArtist(items, a)| == Count(ArtistIds(items), a)
  {
    if |items| > 0 {
      var n := |items| - 1;
      ByArtistCount(items[..n], a);
      assert ArtistIds(items)[..n] == ArtistIds(items[..n]);
    }
  }

  /** `newItems` is the source minus all but one of the dominant artist's
      tracks. */
  lemma NewItemsLength(items: seq<Track>)
    requires AllHaveArtist(items) && |items| > 0
    ensures MostFrequentArtist(items).Some?
    ensures |NewItems(items)| == |items| - Count(ArtistIds(items), MostFrequentArtist(items).value) + 1
  {
    NewItemsKeepFirstDominantTrack(items);
    var a := MostFrequentArtist(items).value;
    SuppressLength(items, a, TopSongIndex(items));
    ByArtistCount(items, a);
  }
}
