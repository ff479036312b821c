# spotify-gyakubari: the playlist rebalancer, in Dafny

spotify-gyakubari is a scheduled job. It rewrites a "contrarian top 50"
playlist from a source top-50 playlist. Its one piece of decision logic is
the rebalancer in `index.ts`, which this project models and proves things about:

- `mostFrequent` (index.ts:61-70) finds the dominant artist: the most
  frequent primary-artist id among the source tracks. It counts ids into a
  dictionary, takes the largest count, and returns the first key, in the
  dictionary's enumeration order, that has that count. It returns `null`
  for an empty array.
- The suppression filter (index.ts:26-35) keeps every source track except
  the dominant artist's tracks other than their first one (the "top song").
- The backfill (index.ts:30, 36-42) tops the list up to 50. It uses
  complement-playlist tracks whose primary artist does not appear anywhere
  in the source. It never truncates.

Files:

- `wrappers.dfy`: `Option`, which stands for JavaScript's `null`.
- `frequency.dfy` (module `Frequency`): the counting specification (`Count`,
  `Keys`, `MaxCount`, `FirstWithCount`, `Mode`), the independent
  description `IsMode`, and the imperative `MostFrequent`. `MostFrequent`
  has the source's counting loop over a `map<string, int>` plus an
  insertion-ordered key list. It then runs a `Math.max` loop and a `find`
  loop, and it is proved equal to `Mode`.
- `rebalancer.dfy` (module `Rebalancer`): a track is `Track(uri, artists)`.
  Lines 26-42 of `main` are lifted into the pure function
  `Rebalance(items, cItems)`, which returns the URIs to write and the
  dominant artist. Functions cannot call methods, so `Rebalance` uses
  `Mode`. `MostFrequent`'s contract shows that `Mode` is what the method
  computes.
- `examples.dfy` (module `RebalancerExamples`): small worked instances.

Every function that reads `track.artists[0]` requires each track of `items`
and `cItems` to have at least one artist (`AllHaveArtist`). The source reads
that field unconditionally.

The tie-break assumes insertion-order key enumeration. `Object.keys`
enumerates non-integer-like string keys in insertion order. Spotify artist
ids are 22-character base62 strings, so the keys are the distinct ids in
order of first occurrence (`Keys`). The dominant artist is then the
most frequent id that occurs first (`IsMode`).

Two behaviours of the code worth knowing:

- The code has no explicit guard for an empty source list, and neither
  does the model. With no tracks the dominant artist is `null`, `findIndex`
  gives -1, every complement track passes the uniqueness test, and the
  first 50 complement tracks are written (`RebalanceEmptySource`).
- `RebalanceLength` states the exact length rule: the list is topped up to
  50 when it is shorter, and never cut when it is longer.

## Model

| member | source | states |
|---|---|---|
| `Frequency.Count` | index.ts:65 | the count of an id is positive exactly when the id occurs, and is at most the array's length |
| `Frequency.IndexOf` | index.ts:28 | `findIndex` with `===`: -1 exactly when the value is absent, otherwise a position holding it with no earlier one |
| `Frequency.Keys` | index.ts:64-65 | the dictionary's keys are exactly the elements of the array, each once |
| `Frequency.KeysInFirstOccurrenceOrder` | index.ts:64-68 | keys are enumerated in the order of their first occurrence in the array (insertion order) |
| `Frequency.MaxCount` | index.ts:67 | `Math.max` over the counts: it bounds every key's count and some key reaches it |
| `Frequency.FirstWithCount` | index.ts:68 | `find` over the keys: -1 exactly when no key has the count, otherwise the first key that has it |
| `Frequency.FirstMaxKeyIsMode` | index.ts:67-68 | for a non-empty array `find` meets a key holding the largest count, and that key is an element whose count is maximal and which occurs first among equally frequent elements |
| `Frequency.Mode` | index.ts:61-70 | `mostFrequent`: null exactly for an empty array, otherwise an element with maximal count that occurs first among equally frequent ones (`IsMode`); `ModeCharacterization` adds that it is the only such element |
| `Frequency.ModeCharacterization` | index.ts:61-70 | the result is null exactly for an empty array, and it is `x` if and only if `x` is the earliest most frequent element |
| `Frequency.CountOccurrences` | index.ts:64-65 | the counting loop leaves a dictionary whose keys are the array's elements, mapped to their counts, with the keys in insertion order |
| `Frequency.LargestCount` | index.ts:67 | `Math.max(...Object.values(max))`: the result bounds every key's count and some key's count equals it |
| `Frequency.FindKey` | index.ts:68 | `find` with `max[key] === maxCount`: the index returned holds the largest count and no earlier key holds it |
| `Frequency.MostFrequent` | index.ts:61-70 | the method returns what `Mode` specifies: null exactly for an empty array, otherwise the earliest most frequent element |
| `Rebalancer.ArtistIds` | index.ts:26 | one id per source item, in order: the primary artist of the item at the same position |
| `Rebalancer.MostFrequentArtist` | index.ts:27 | the dominant artist is null exactly for an empty source, otherwise the earliest most frequent primary-artist id |
| `Rebalancer.TopSongIndex` | index.ts:28 | -1 exactly for an empty source; otherwise the position of the dominant artist's first track, with no earlier track by that artist |
| `Rebalancer.NewItems` | index.ts:31-35 | `newItems` is no longer than `items`, and for a non-empty source the dominant artist's only track in it is the top song (which tracks it keeps, in order, is `SuppressSelects`) |
| `Rebalancer.UniqueCItems` | index.ts:30 | `uniqueCItems` holds no track whose primary artist occurs in the source (which tracks it keeps, in order, is `UniqueComplementSelects` with `UniqueCItemsIgnoreDominant`) |
| `Rebalancer.Uris` | index.ts:36 | one URI per track, in order: the URI of the track at the same position |
| `Rebalancer.Backfill` | index.ts:37-41 | the appended tracks are a prefix of `uniqueCItems`: `min(50 - len, pool size)` of them when `newItems` has at most 50 tracks, none otherwise |
| `Rebalancer.Take` | index.ts:39 | `slice(0, n)`: the first `n` elements, or all of them when there are fewer |
| `Rebalancer.Suppress` | index.ts:31-35 | the filter's output is no longer than its input (which tracks it keeps, and in what order, is `SuppressSelects`) |
| `Rebalancer.UniqueComplement` | index.ts:30 | the pool is no longer than the complement and every track in it passes the uniqueness test (which tracks it keeps, in order, is `UniqueComplementSelects`) |
| `Rebalancer.SuppressSelects` | index.ts:31-35 | `newItems` is `items` at strictly increasing positions; a position is kept if and only if it is the top song's or its artist is not the dominant one |
| `Rebalancer.UniqueComplementSelects` | index.ts:30 | the pool is `cItems` at strictly increasing positions; a position is kept if and only if its artist is absent from `artistIds` and is not the dominant one |
| `Rebalancer.SuppressLeavesTopOnly` | index.ts:31-35 | of artist `a`'s tracks the filter keeps exactly the track at the top index, when that track is by `a`, and none otherwise |
| `Rebalancer.NewItemsKeepFirstDominantTrack` | index.ts:26-35 | for a non-empty source the top song is the dominant artist's first track, and it is that artist's only track in `newItems` |
| `Rebalancer.SuppressLength` | index.ts:31-35 | the filter drops exactly the artist's tracks other than the top song |
| `Rebalancer.NewItemsLength` | index.ts:26-35 | `newItems` has `items`' length minus the dominant artist's count plus one |
| `Rebalancer.UniqueCItemsIgnoreDominant` | index.ts:30 | the test against the dominant artist never changes the pool: it is exactly the complement tracks whose artist is absent from the source |
| `Rebalancer.BackfillFromComplement` | index.ts:30-41 | the appended tracks are a prefix of the pool, taken from `cItems` in order, and none is by a source artist or by the dominant artist |
| `Rebalancer.Rebalance` | index.ts:26-42 | the dominant artist is null exactly for an empty source, otherwise the earliest most frequent id; the URIs are those of `newItems` followed by the backfill |
| `Rebalancer.RebalanceLength` | index.ts:36-42 | `uris` starts with `newItems`' URIs; up to 50 it gains `min(50 - len, pool size)` more, ending at most 50; above 50 it is `newItems`' URIs unchanged |
| `Rebalancer.RebalanceOneDominantTrack` | index.ts:26-42 | for a non-empty source the written tracks contain exactly one track by the dominant artist: its first track in the source |
| `Rebalancer.RebalanceNoComplement` | index.ts:30-42 | with an empty complement playlist the run writes exactly the URIs of `newItems` |
| `Rebalancer.RebalanceEmptySource` | index.ts:26-42 | with no source tracks there is no dominant artist, and the first 50 complement tracks are written |
| `RebalancerExamples.DominantExample` | index.ts:61-70 | among the ids A, A, B, A, C the result is A |
| `RebalancerExamples.PlaylistIdsDominant` | index.ts:61-70 | among the ids A, B, A, A the result is A |
| `RebalancerExamples.PlaylistDominant` | index.ts:26-28 | for tracks 1:A, 2:B, 3:A, 4:A the dominant artist is A, with its top song at index 0 |
| `RebalancerExamples.PlaylistSuppressed` | index.ts:31-35 | the filter keeps tracks 1 and 2 of that playlist |
| `RebalancerExamples.SuppressionExample` | index.ts:26-42 | with an empty complement the run writes URIs 1 and 2 and names A |

## Left out

- `getAccessToken` (index.ts:72-86): an HTTP POST for the OAuth 2.0 refresh-token grant (section 6 of RFC 6749). It is network I/O that returns untyped JSON.
- Every Spotify Web API client call (index.ts:20, 22-23, 43-45, 50): the playlists read become the parameters `items` and `cItems`. Writing `uris` and the later calls are not modelled.
- `makeArtwork` (index.ts:88-92): image reading, compositing and base64 JPEG encoding in an external library.
- The choice of `images[images.length - 1]` (index.ts:50): it depends on the ordering promised by the external API.
- `dayjs().format(...)` and setting `TZ` (index.ts:8, 18): they depend on the wall clock and the time zone.
- The playlist name and description strings (index.ts:46-47): template interpolation.
- Environment and configuration loading (index.ts:5-14).
- The cloud-event registration and the top-level `main()` call (index.ts:53-56): deployment plumbing with fire-and-forget asynchronous behaviour.
- Frequency.Keys: assumes insertion-order key enumeration. JavaScript enumerates integer-like keys (such as "42") first, in numeric order. Artist ids are never integer-like, so the model does not capture that case.
- Frequency.Count: counts are unbounded integers. JavaScript numbers are doubles, which are exact up to 2^53, far beyond any playlist length.
- Frequency.Mode: the model does not capture ids that name `Object.prototype` properties. `max` is a plain `{}` (index.ts:64), so for an id such as `toString` the counter reads an inherited function, `Math.max` gives NaN and `find` returns `undefined`; for `__proto__` the assignment is ignored, so that id is never counted and `find` returns the most frequent of the other ids, or `undefined` when there are none. The model treats every id as an ordinary key, so `Mode` is never null for a non-empty array. This is safe for the inputs the program sees: artist ids are 22-character base62 strings, and no `Object.prototype` property has that form.
