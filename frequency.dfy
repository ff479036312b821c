/** `mostFrequent` of index.ts: the most frequent string of an array.

    The source counts occurrences into a dictionary, takes the largest count
    and returns the first dictionary key, in key-enumeration order, that has
    that count. For the artist ids it is given (22-character base62 strings,
    never integer-like) the enumeration order is insertion order, so the keys
    are the distinct elements of the array in order of first occurrence:
    `Keys` below. Such ids are never the name of an `Object.prototype`
    property either (`toString`, `__proto__`), so every id behaves as an
    ordinary dictionary key. */
module Frequency {
  import opened Wrappers

  /** Number of occurrences of `x` in `s`. */
  function Count(s: seq<string>, x: string): (n: nat)
    ensures n <= |s|
    ensures n > 0 <==> x in s
  {
    if |s| == 0 then 0
    else
      var p := s[..|s| - 1];
      assert s == p + [s[|s| - 1]];
      Count(p, x) + (if s[|s| - 1] == x then 1 else 0)
  }

  /** `Array.prototype.findIndex` with strict equality: the first index of
      `x` in `s`, or -1 when there is none. */
  function IndexOf(s: seq<string>, x: string): (i: int)
    ensures i == -1 <==> x !in s
    ensures i != -1 ==> 0 <= i < |s| && s[i] == x
    ensures i != -1 ==> forall k :: 0 <= k < i ==> s[k] != x
  {
    if |s| == 0 then -1
    else if s[0] == x then 0
    else
      var j := IndexOf(s[1..], x);
      if j == -1 then -1 else j + 1
  }

  /** The keys of the counting dictionary in enumeration order: the distinct
      elements of `s`, each appended when it is first met. */
  function Keys(s: seq<string>): (ks: seq<string>)
    ensures forall x :: x in ks <==> x in s
    ensures forall i, j :: 0 <= i < j < |ks| ==> ks[i] != ks[j]
  {
    if |s| == 0 then []
    else
      var p := s[..|s| - 1];
      assert s == p + [s[|s| - 1]];
      var kp := Keys(p);
      if s[|s| - 1] in kp then kp else kp + [s[|s| - 1]]
  }

  /** `Math.max` over the counts, in `s`, of the keys `ks` (0 for no keys;
      every real count is at least 1, so this agrees with the source). */
  function MaxCount(s: seq<string>, ks: seq<string>): (m: nat)
    ensures forall i :: 0 <= i < |ks| ==> Count(s, ks[i]) <= m
    ensures |ks| > 0 ==> exists i :: 0 <= i < |ks| && Count(s, ks[i]) == m
  {
    if |ks| == 0 then 0
    else
      var p := ks[..|ks| - 1];
      assert ks == p + [ks[|ks| - 1]];
      var m := MaxCount(s, p);
      var c := Count(s, ks[|ks| - 1]);
      if c > m then c else m
  }

  /** `Array.prototype.find` over the keys: the position in `ks` of the first
      key whose count in `s` is `c`, or -1 when there is none. */
  function FirstWithCount(s: seq<string>, ks: seq<string>, c: nat): (i: int)
    ensures i == -1 <==> forall k :: 0 <= k < |ks| ==> Count(s, ks[k]) != c
    ensures i != -1 ==> 0 <= i < |ks| && Count(s, ks[i]) == c
    ensures i != -1 ==> forall j :: 0 <= j < i ==> Count(s, ks[j]) != c
  {
    if |ks| == 0 then -1
    else if Count(s, ks[0]) == c then 0
    else
      var j := FirstWithCount(s, ks[1..], c);
      if j == -1 then -1 else j + 1
  }

  /** The first key with count `c` is the one every earlier key misses. */
  lemma FirstWithCountAt(s: seq<string>, ks: seq<string>, c: nat, j: int)
    requires 0 <= j < |ks| && Count(s, ks[j]) == c
    requires forall k :: 0 <= k < j ==> Count(s, ks[k]) != c
    ensures FirstWithCount(s, ks, c) == j
  {
    var f := FirstWithCount(s, ks, c);
    assert f != -1;
    assert !(f < j);
  }

  /** The largest count is the one that bounds every key's count and is
      reached by some key. */
  lemma MaxCountAt(s: seq<string>, ks: seq<string>, m: nat, w: int)
    requires forall k :: 0 <= k < |ks| ==> Count(s, ks[k]) <= m
    requires 0 <= w < |ks| && Count(s, ks[w]) == m
    ensures MaxCount(s, ks) == m
  {
    var mc := MaxCount(s, ks);
    assert Count(s, ks[w]) <= mc;
    var v :| 0 <= v < |ks| && Count(s, ks[v]) == mc;
  }

  /** Mode is read off the key list once its largest count and the first key
      reaching it are known. */
  lemma ModeIsFirstWithMaxCount(s: seq<string>, m: nat, i: int)
    requires 0 <= i < |Keys(s)| && |s| > 0
    requires forall k :: 0 <= k < |Keys(s)| ==> Count(s, Keys(s)[k]) <= m
    requires Count(s, Keys(s)[i]) == m
    requires forall k :: 0 <= k < i ==> Count(s, Keys(s)[k]) != m
    ensures Mode(s) == Some(Keys(s)[i])
  {
    MaxCountAt(s, Keys(s), m, i);
    FirstWithCountAt(s, Keys(s), m, i);
  }

  /** The keys of a dictionary of counts are all in it, and there is one. */
  lemma KeysAreCounted(s: seq<string>, counts: map<string, int>, keys: seq<string>)
    requires |s| > 0 && keys == Keys(s)
    requires forall k :: k in counts <==> k in s
    ensures |keys| > 0
    ensures forall k :: 0 <= k < |keys| ==> keys[k] in counts
  {
    assert s[0] in keys;
    forall k | 0 <= k < |keys|
      ensures keys[k] in counts
    {
      assert keys[k] in s;
    }
  }

  /** Mode read off a dictionary of counts: its largest value and the first
      key, in insertion order, holding it. */
  lemma ModeFromCounts(s: seq<string>, counts: map<string, int>, m: int, i: int)
    requires |s| > 0 && 0 <= i < |Keys(s)|
    requires forall k :: k in counts <==> k in s
    requires forall k :: k in counts ==> counts[k] == Count(s, k)
    requires forall k :: 0 <= k < |Keys(s)| ==> counts[Keys(s)[k]] <= m
    requires counts[Keys(s)[i]] == m
    requires forall k :: 0 <= k < i ==> counts[Keys(s)[k]] != m
    ensures Mode(s) == Some(Keys(s)[i])
  {
    var ks := Keys(s);
    assert forall k :: 0 <= k < |ks| ==> ks[k] in s;
    assert m >= 0;
    ModeIsFirstWithMaxCount(s, m, i);
  }

  /** What `mostFrequent` returns: None for an empty array, otherwise the
      first key whose count is the largest. Some key always reaches the
      largest count, so `find` always finds one. */
  function Mode(s: seq<string>): (r: Option<string>)
    ensures r.None? <==> |s| == 0
    ensures r.Some? ==> IsMode(s, r.value)
  {
    if |s| == 0 then None
    else
      var ks := Keys(s);
      FirstMaxKeyIsMode(s);
      Some(ks[FirstWithCount(s, ks, MaxCount(s, ks))])
  }

  /** The independent description of the answer: an element of `s` that
      occurs at least as often as any other, and among the elements that
      occur as often, the one met first. */
  ghost predicate IsMode(s: seq<string>, x: string)
  {
    && x in s
    && (forall y :: y in s ==> Count(s, y) <= Count(s, x))
    && (forall y :: y in s && Count(s, y) == Count(s, x) ==> IndexOf(s, x) <= IndexOf(s, y))
  }

  /** Looking a value up in a prefix finds it where the whole sequence does. */
  lemma IndexOfPrefix(s: seq<string>, n: nat, x: string)
    requires n <= |s| && x in s[..n]
    ensures IndexOf(s, x) == IndexOf(s[..n], x)
  {
    var i := IndexOf(s[..n], x);
    assert s[i] == s[..n][i] == x;
    var j := IndexOf(s, x);
    assert j <= i;
    assert s[..n][j] == x;
  }

  /** The dictionary enumerates its keys in order of their first occurrence. */
  lemma {:induction false} KeysInFirstOccurrenceOrder(s: seq<string>)
    ensures forall i, j :: 0 <= i < j < |Keys(s)| ==> IndexOf(s, Keys(s)[i]) < IndexOf(s, Keys(s)[j])
  {
    if |s| > 0 {
      var n := |s| - 1;
      var p := s[..n];
      assert s == p + [s[n]];
      KeysInFirstOccurrenceOrder(p);
      forall k | k in p
        ensures IndexOf(s, k) == IndexOf(p, k) < n
      {
        IndexOfPrefix(s, n, k);
      }
      assert forall k :: 0 <= k < n ==> s[k] == p[k];
    }
  }

  /** Every element of `s` is a key, so the largest key count bounds them all. */
  lemma MaxCountBoundsAll(s: seq<string>, y: string)
    requires y in s
    ensures Count(s, y) <= MaxCount(s, Keys(s))
  {
    assert y in Keys(s);
  }

  /** A key listed no later than another was met no later. */
  lemma KeyMetFirst(s: seq<string>, i: int, j: int)
    requires 0 <= i <= j < |Keys(s)|
    ensures IndexOf(s, Keys(s)[i]) <= IndexOf(s, Keys(s)[j])
  {
    if i < j {
      KeysInFirstOccurrenceOrder(s);
    }
  }

  /** For a non-empty array `find` meets a key with the largest count, and
      that key is the mode. */
  lemma FirstMaxKeyIsMode(s: seq<string>)
    requires |s| > 0
    ensures var ks := Keys(s);
      var i := FirstWithCount(s, ks, MaxCount(s, ks));
      0 <= i < |ks| && IsMode(s, ks[i])
  {
    var ks := Keys(s);
    assert s[0] in ks;
    var m := MaxCount(s, ks);
    var i := FirstWithCount(s, ks, m);
    var x := ks[i];
    forall y | y in s
      ensures Count(s, y) <= Count(s, x)
    {
      MaxCountBoundsAll(s, y);
    }
    forall y | y in s && Count(s, y) == Count(s, x)
      ensures IndexOf(s, x) <= IndexOf(s, y)
    {
      assert y in ks;
      var j :| 0 <= j < |ks| && ks[j] == y;
      assert i <= j;
      KeyMetFirst(s, i, j);
    }
  }

  /** At most one element is the mode. */
  lemma ModeUnique(s: seq<string>, x: string, y: string)
    requires IsMode(s, x) && IsMode(s, y)
    ensures x == y
  {
    assert Count(s, x) == Count(s, y);
    assert IndexOf(s, x) == IndexOf(s, y);
  }

  /** `mostFrequent` returns null exactly for the empty array, and otherwise
      returns precisely the mode: both directions of the characterization. */
  lemma ModeCharacterization(s: seq<string>)
    ensures Mode(s).None? <==> |s| == 0
    ensures forall x :: Mode(s) == Some(x) <==> IsMode(s, x)
  {
    if |s| > 0 {
      forall x | IsMode(s, x)
        ensures Mode(s) == Some(x)
      {
        ModeUnique(s, x, Mode(s).value);
      }
    }
  }

  /** The counting loop: the dictionary of occurrence counts, and its keys in
      the order they were inserted. */
  method CountOccurrences(arr: seq<string>) returns (counts: map<string, int>, keys: seq<string>)
    ensures keys == Keys(arr)
    ensures forall k :: k in counts <==> k in arr
    ensures forall k :: k in counts ==> counts[k] == Count(arr, k)
  {
    counts, keys := map[], [];
    for i := 0 to |arr|
      invariant keys == Keys(arr[..i])
      invariant forall k :: k in counts <==> k in arr[..i]
      invariant forall k :: k in counts ==> counts[k] == Count(arr[..i], k)
    {
      var a := arr[i];
      assert arr[..i + 1][..i] == arr[..i];
      if a !in counts {
        keys := keys + [a];
      }
      counts := counts[a := (if a in counts then counts[a] else 0) + 1];
    }
    assert arr[..|arr|] == arr;
  }

  /** `Math.max(...Object.values(max))` over the non-empty dictionary
      `counts`, visiting the values in key order: the largest value, and a
      key `w` that holds it. */
  method LargestCount(counts: map<string, int>, keys: seq<string>) returns (maxCount: int, ghost w: int)
    requires |keys| > 0
    requires forall k :: 0 <= k < |keys| ==> keys[k] in counts
    ensures forall k :: 0 <= k < |keys| ==> counts[keys[k]] <= maxCount
    ensures 0 <= w < |keys| && counts[keys[w]] == maxCount
  {
    maxCount, w := counts[keys[0]], 0;
    for j := 1 to |keys|
      invariant forall k :: 0 <= k < j ==> counts[keys[k]] <= maxCount
      invariant 0 <= w < j && counts[keys[w]] == maxCount
    {
      if counts[keys[j]] > maxCount {
        maxCount, w := counts[keys[j]], j;
      }
    }
  }

  /** `Object.keys(max).find(key => max[key] === maxCount)` when some key
      `w` holds `maxCount`: the position of the first key that does. */
  method FindKey(counts: map<string, int>, keys: seq<string>, maxCount: int, ghost w: int) returns (i: int)
    requires forall k :: 0 <= k < |keys| ==> keys[k] in counts
    requires 0 <= w < |keys| && counts[keys[w]] == maxCount
    ensures 0 <= i <= w && counts[keys[i]] == maxCount
    ensures forall k :: 0 <= k < i ==> counts[keys[k]] != maxCount
  {
    i := 0;
    while counts[keys[i]] != maxCount
      invariant 0 <= i <= w
      invariant forall k :: 0 <= k < i ==> counts[keys[k]] != maxCount
      decreases w - i
    {
      i := i + 1;
    }
  }

  /** `mostFrequent`: null for an empty array; otherwise the counts, their
      maximum, and the first key holding it. */
  method MostFrequent(arr: seq<string>) returns (r: Option<string>)
    ensures r == Mode(arr)
    ensures r.None? <==> |arr| == 0
    ensures r.Some? ==> IsMode(arr, r.value)
  {
    if |arr| == 0 {
      return None;
    }
    var counts, keys := CountOccurrences(arr);
    KeysAreCounted(arr, counts, keys);
    var maxCount, w := LargestCount(counts, keys);
    var i := FindKey(counts, keys, maxCount, w);
    r := Some(keys[i]);
    ModeFromCounts(arr, counts, maxCount, i);
  }
}
