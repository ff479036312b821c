/** Worked instances of the rebalancer on small playlists. */
module RebalancerExamples {
  import opened Wrappers
  import opened Frequency
  import opened Rebalancer

  /** Among the ids A, A, B, A, C the dominant one is A, with three tracks. */
  lemma DominantExample()
    ensures Mode(["A", "A", "B", "A", "C"]) == Some("A")
  {
    var s := ["A", "A", "B", "A", "C"];
    assert Count(s[..1], "A") == 1;
    assert Count(s[..2], "A") == 2 by { assert s[..2][..1] == s[..1]; }
    assert Count(s[..3], "A") == 2 by { assert s[..3][..2] == s[..2]; }
    assert Count(s[..4], "A") == 3 by { assert s[..4][..3] == s[..3]; }
    assert Count(s, "A") == 3 by { assert s[..4] == s[..|s| - 1]; }
    assert Count(s, "B") == 1;
    assert Count(s, "C") == 1;
    assert IsMode(s, "A");
    ModeCharacterization(s);
  }

  /** Tracks 1:A, 2:B, 3:A, 4:A. */
  function Playlist(): (ts: seq<Track>)
    ensures AllHaveArtist(ts)
  {
    [Track("1", ["A"]), Track("2", ["B"]), Track("3", ["A"]), Track("4", ["A"])]
  }

  /** Among the ids A, B, A, A the dominant one is A, with three tracks. */
  lemma PlaylistIdsDominant()
    ensures Mode(["A", "B", "A", "A"]) == Some("A")
  {
    var s := ["A", "B", "A", "A"];
    assert Count(s[..1], "A") == 1 && Count(s[..1], "B") == 0;
    assert Count(s[..2], "A") == 1 && Count(s[..2], "B") == 1 by { assert s[..2][..1] == s[..1]; }
    assert Count(s[..3], "A") == 2 && Count(s[..3], "B") == 1 by { assert s[..3][..2] == s[..2]; }
    assert Count(s, "A") == 3 && Count(s, "B") == 1 by { assert s[..3] == s[..|s| - 1]; }
    assert IsMode(s, "A");
    ModeCharacterization(s);
  }

  /** A dominates the example playlist and its first track is at index 0. */
  lemma PlaylistDominant()
    ensures MostFrequentArtist(Playlist()) == Some("A")
    ensures TopSongIndex(Playlist()) == 0
  {
    var ids := ArtistIds(Playlist());
    assert ids == ["A", "B", "A", "A"];
    PlaylistIdsDominant();
  }

  /** With A dominant and its top song at index 0, tracks 3 and 4 are dropped. */
  lemma PlaylistSuppressed()
    ensures Suppress(Playlist(), Some("A"), 0) == [Playlist()[0], Playlist()[1]]
  {
    var items, d := Playlist(), Some("A");
    assert Suppress(items[..1], d, 0) == [items[0]];
    assert Suppress(items[..2], d, 0) == [items[0], items[1]] by { assert items[..2][..1] == items[..1]; }
    assert Suppress(items[..3], d, 0) == [items[0], items[1]] by { assert items[..3][..2] == items[..2]; }
    assert items[..3] == items[..|items| - 1];
  }

  /** The URIs of two tracks are theirs, in order. */
  lemma UrisOfPair(x: Track, y: Track)
    ensures Uris([x, y]) == [x.uri, y.uri]
  {
  }

  /** The whole run on the example with an empty complement writes tracks 1
      and 2 and names A. */
  lemma SuppressionExample()
    ensures Rebalance(Playlist(), []).uris == ["1", "2"]
    ensures Rebalance(Playlist(), []).dominant == Some("A")
  {
    var items := Playlist();
    assert AllHaveArtist(items);
    assert NewItems(items) == [items[0], items[1]] by {
      PlaylistDominant();
      PlaylistSuppressed();
    }
    RebalanceNoComplement(items);
    UrisOfPair(items[0], items[1]);
    PlaylistDominant();
  }
}
