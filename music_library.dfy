/**
 * The library view's list (src/components/MusicLibrary.tsx): the tracks
 * whose title, artist or album contains the search text, ignoring case,
 * sorted by the chosen key. Locale collation is a parameter: any
 * comparison whose sign is antisymmetric, and transitive where a property
 * needs the sorted order between non-neighbours.
 */
module MusicLibrary {
  import opened MusicTypes
  import opened JsString

  // ---------------------------------------------------------------------------
  // Search

  /** The search text occurs, ignoring case, in the title, artist or album. */
  predicate Matches(t: Track, query: string) {
    var q := ToLower(query);
    Includes(ToLower(t.title), q) || Includes(ToLower(t.artist), q) || Includes(ToLower(t.album), q)
  }

  /**
   * `tracks.filter(…)`: the matching tracks in their original order. Each
   * matching track appears as often as in the input, no other track at all.
   */
  function FilterTracks(ts: seq<Track>, query: string): (r: seq<Track>)
    ensures forall t :: t in r ==> Matches(t, query)
    ensures forall t :: t in ts && Matches(t, query) ==> t in r
    ensures forall t :: multiset(r)[t] == if Matches(t, query) then multiset(ts)[t] else 0
    ensures |r| <= |ts|
  {
    if ts == [] then []
    else
      var rest := FilterTracks(ts[1..], query);
      assert ts == [ts[0]] + ts[1..];
      if Matches(ts[0], query) then [ts[0]] + rest else rest
  }

  /** An empty search keeps every track, in order. */
  lemma {:induction false} EmptyQueryKeepsAll(ts: seq<Track>)
    ensures FilterTracks(ts, "") == ts
  {
    if ts != [] {
      assert OccursAt(ToLower(ts[0].title), ToLower(""), 0);
      EmptyQueryKeepsAll(ts[1..]);
    }
  }

  /** Filtering again with the same text changes nothing. */
  lemma {:induction false} FilterIdempotent(ts: seq<Track>, query: string)
    ensures FilterTracks(FilterTracks(ts, query), query) == FilterTracks(ts, query)
  {
    if ts != [] {
      FilterIdempotent(ts[1..], query);
    }
  }

  // ---------------------------------------------------------------------------
  // Sort

  /** The `sortBy` choices. */
  datatype SortKey = ByTitle | ByArtist | ByAlbum | ByDuration

  /** A comparison whose sign flips when its arguments swap, as `localeCompare`'s does. */
  ghost predicate Antisymmetric(collate: (string, string) -> int) {
    forall a, b :: collate(a, b) < 0 <==> collate(b, a) > 0
  }

  /** A comparison whose "not after" is transitive. */
  ghost predicate Transitive(collate: (string, string) -> int) {
    forall a, b, c :: collate(a, b) <= 0 && collate(b, c) <= 0 ==> collate(a, c) <= 0
  }

  /** The comparator passed to `sort`: collation on a text key, difference of durations. */
  function Compare(key: SortKey, collate: (string, string) -> int, a: Track, b: Track): int {
    match key
    case ByTitle => collate(a.title, b.title)
    case ByArtist => collate(a.artist, b.artist)
    case ByAlbum => collate(a.album, b.album)
    case ByDuration => a.duration - b.duration
  }

  /** On an antisymmetric collation the comparator itself is antisymmetric. */
  lemma CompareAntisymmetric(key: SortKey, collate: (string, string) -> int, a: Track, b: Track)
    requires Antisymmetric(collate)
    ensures Compare(key, collate, a, b) < 0 <==> Compare(key, collate, b, a) > 0
  {
  }

  /** Every neighbour pair is in order: the comparator never says the first belongs after the second. */
  ghost predicate Sorted(key: SortKey, collate: (string, string) -> int, s: seq<Track>) {
    forall i :: 0 <= i < |s| - 1 ==> Compare(key, collate, s[i], s[i + 1]) <= 0
  }

  /** `x` placed after the leading tracks it does not precede. */
  function Insert(key: SortKey, collate: (string, string) -> int, x: Track, s: seq<Track>): (r: seq<Track>)
    ensures multiset(r) == multiset(s) + multiset{x}
    ensures |r| == |s| + 1
    ensures r[0] == x || (s != [] && r[0] == s[0])
  {
    if s == [] then [x]
    else if Compare(key, collate, x, s[0]) < 0 then [x] + s
    else
      assert s == [s[0]] + s[1..];
      [s[0]] + Insert(key, collate, x, s[1..])
  }

  /** Inserting into a sorted list keeps it sorted, the comparator being antisymmetric. */
  lemma {:induction false} InsertKeepsSorted(key: SortKey, collate: (string, string) -> int, x: Track, s: seq<Track>)
    requires Antisymmetric(collate)
    requires Sorted(key, collate, s)
    ensures Sorted(key, collate, Insert(key, collate, x, s))
  {
    if s != [] && Compare(key, collate, x, s[0]) >= 0 {
      var tail := s[1..];
      assert Sorted(key, collate, tail) by {
        forall i | 0 <= i < |tail| - 1
          ensures Compare(key, collate, tail[i], tail[i + 1]) <= 0
        {
          assert tail[i] == s[i + 1] && tail[i + 1] == s[i + 2];
        }
      }
      InsertKeepsSorted(key, collate, x, tail);
      CompareAntisymmetric(key, collate, x, s[0]);
      var rest := Insert(key, collate, x, tail);
      var r := [s[0]] + rest;
      forall i | 0 <= i < |r| - 1
        ensures Compare(key, collate, r[i], r[i + 1]) <= 0
      {
        if i > 0 {
          assert r[i] == rest[i - 1] && r[i + 1] == rest[i];
        }
      }
    }
  }

  /**
   * `filtered.sort(comparator)`: tracks inserted one by one in input order,
   * each after the tracks it ties with; `SortTracksSorted` states the order.
   */
  function SortTracks(key: SortKey, collate: (string, string) -> int, s: seq<Track>): (r: seq<Track>)
    ensures multiset(r) == multiset(s)
    ensures |r| == |s|
  {
    if s == [] then []
    else
      var init, last := s[..|s| - 1], s[|s| - 1];
      assert multiset(s) == multiset(init) + multiset{last} by {
        assert s == init + [last];
      }
      Insert(key, collate, last, SortTracks(key, collate, init))
  }

  /** The sorted list is in an order the comparator accepts for every neighbour pair. */
  lemma {:induction false} SortTracksSorted(key: SortKey, collate: (string, string) -> int, s: seq<Track>)
    requires Antisymmetric(collate)
    ensures Sorted(key, collate, SortTracks(key, collate, s))
  {
    if s != [] {
      var init, last := s[..|s| - 1], s[|s| - 1];
      SortTracksSorted(key, collate, init);
      InsertKeepsSorted(key, collate, last, SortTracks(key, collate, init));
    }
  }

  /** With a transitive collation, neighbour order extends to every pair. */
  lemma {:induction false} SortedPairwise(key: SortKey, collate: (string, string) -> int, s: seq<Track>)
    requires Transitive(collate)
    requires Sorted(key, collate, s)
    ensures forall i, j :: 0 <= i < j < |s| ==> Compare(key, collate, s[i], s[j]) <= 0
  {
    forall i, j | 0 <= i < j < |s|
      ensures Compare(key, collate, s[i], s[j]) <= 0
    {
      var k := i + 1;
      while k < j
        invariant i < k <= j
        invariant Compare(key, collate, s[i], s[k]) <= 0
      {
        assert Compare(key, collate, s[k], s[k + 1]) <= 0;
        k := k + 1;
      }
    }
  }

  /** Sorting by duration puts durations in non-decreasing order, for any collation. */
  lemma SortByDurationNondecreasing(collate: (string, string) -> int, s: seq<Track>)
    requires Antisymmetric(collate)
    ensures var r := SortTracks(ByDuration, collate, s);
            forall i, j :: 0 <= i < j < |r| ==> r[i].duration <= r[j].duration
  {
    SortTracksSorted(ByDuration, collate, s);
    DurationsInOrder(collate, SortTracks(ByDuration, collate, s));
  }

  /** A list sorted by duration has non-decreasing durations throughout. */
  lemma DurationsInOrder(collate: (string, string) -> int, r: seq<Track>)
    requires Sorted(ByDuration, collate, r)
    ensures forall i, j :: 0 <= i < j < |r| ==> r[i].duration <= r[j].duration
  {
    forall i, j | 0 <= i < j < |r|
      ensures r[i].duration <= r[j].duration
    {
      var k := i + 1;
      while k < j
        invariant i < k <= j
        invariant r[i].duration <= r[k].duration
      {
        assert Compare(ByDuration, collate, r[k], r[k + 1]) <= 0;
        k := k + 1;
      }
    }
  }

  // ---------------------------------------------------------------------------
  // The memoised list

  /**
   * `filteredAndSortedTracks`: the matching tracks, each as often as in the
   * input and no others, in an order the comparator accepts. The input list
   * is a value and is not reordered.
   */
  function FilteredAndSorted(ts: seq<Track>, query: string, key: SortKey, collate: (string, string) -> int): (r: seq<Track>)
    requires Antisymmetric(collate)
    ensures forall t :: t in r ==> Matches(t, query)
    ensures forall t :: t in ts && Matches(t, query) ==> t in r
    ensures forall t :: multiset(r)[t] == if Matches(t, query) then multiset(ts)[t] else 0
    ensures |r| <= |ts|
    ensures Sorted(key, collate, r)
  {
    var filtered := FilterTracks(ts, query);
    var r := SortTracks(key, collate, filtered);
    SortTracksSorted(key, collate, filtered);
    assert forall t :: t in r <==> t in multiset(r);
    assert forall t :: t in filtered <==> t in multiset(filtered);
    r
  }

  /** With no search text the view lists every track of the library. */
  lemma EmptyQueryListsAll(ts: seq<Track>, key: SortKey, collate: (string, string) -> int)
    requires Antisymmetric(collate)
    ensures multiset(FilteredAndSorted(ts, "", key, collate)) == multiset(ts)
  {
    EmptyQueryKeepsAll(ts);
  }
}
