/**
 * The normalised catalogue entry (`class SearchResult`), its display label
 * for the `kind` field, and the `<` operator that orders results by artist.
 *
 * `localizedStandardCompare` is locale code outside the model: every member
 * that compares artist names takes the locale's collation as a parameter
 * `key` (a `CollationKey`), from which the comparison is derived.
 */
module SearchResults {

  datatype SearchResult = SearchResult(
    name: string,
    artistName: string,
    artworkSmallURL: string,
    artworkLargeURL: string,
    storeURL: string,
    kind: string,
    currency: string,
    price: real,
    genre: string)
  {
    /** The human label shown for this result's `kind`; only `kind` is read. */
    function KindForDisplay(): (shown: string)
      ensures kind in KindLabels ==> shown == KindLabels[kind]
      ensures kind !in KindLabels ==> shown == kind
    {
      DisplayKind(kind)
    }
  }

  /** A freshly constructed result: every string empty, price 0.0. */
  function NewSearchResult(): (r: SearchResult)
    ensures r.name == r.artistName == r.artworkSmallURL == r.artworkLargeURL == ""
    ensures r.storeURL == r.kind == r.currency == r.genre == ""
    ensures r.price == 0.0
  {
    SearchResult("", "", "", "", "", "", "", 0.0, "")
  }

  /** The ten known `kind` values and their labels, as a table. */
  const KindLabels: map<string, string> := map[
    "album" := "Album",
    "audiobook" := "Audio Book",
    "book" := "Book",
    "ebook" := "E-Book",
    "feature-movie" := "Movie",
    "music-video" := "Music Video",
    "podcast" := "Podcast",
    "software" := "App",
    "song" := "Song",
    "tv-episode" := "TV Episode"]

  /** The `switch kind` of `kindForDisplay`: a known kind gets its label, any other passes through. */
  function DisplayKind(kind: string): string
  {
    match kind
    case "album" => "Album"
    case "audiobook" => "Audio Book"
    case "book" => "Book"
    case "ebook" => "E-Book"
    case "feature-movie" => "Movie"
    case "music-video" => "Music Video"
    case "podcast" => "Podcast"
    case "software" => "App"
    case "song" => "Song"
    case "tv-episode" => "TV Episode"
    case _ => kind
  }

  /** The label depends on `kind` alone: results that agree on `kind` get the same label. */
  lemma KindForDisplayReadsKindOnly(a: SearchResult, b: SearchResult)
    requires a.kind == b.kind
    ensures a.KindForDisplay() == b.KindForDisplay()
  {
  }

  // ---------------------------------------------------------------------
  // Ordering by artist name

  /** The result of `localizedStandardCompare` (Foundation's `ComparisonResult`). */
  datatype Ordering = Ascending | Same | Descending

  /**
   * The locale's collation order, given as the position of each string in
   * it: a key into an ordered set, as collation keys are. Any total preorder
   * on strings has such a key.
   */
  type CollationKey = string -> real

  /** `a.localizedStandardCompare(b)` under the collation `key`. */
  function Compare(key: CollationKey, a: string, b: string): Ordering
  {
    if key(a) < key(b) then Ascending
    else if key(a) == key(b) then Same
    else Descending
  }

  /** Swapping the two strings swaps ascending and descending and keeps "same". */
  lemma CompareConverse(key: CollationKey, a: string, b: string)
    ensures Compare(key, a, b) == Ascending <==> Compare(key, b, a) == Descending
    ensures Compare(key, a, b) == Same <==> Compare(key, b, a) == Same
  {
  }

  /** `lhs < rhs`: the artist names compare as ascending. */
  predicate Less(key: CollationKey, lhs: SearchResult, rhs: SearchResult)
  {
    Compare(key, lhs.artistName, rhs.artistName) == Ascending
  }

  /** `<` looks at the two artist names and nothing else. */
  lemma LessReadsArtistOnly(key: CollationKey, a: SearchResult, b: SearchResult, a': SearchResult, b': SearchResult)
    requires a.artistName == a'.artistName && b.artistName == b'.artistName
    ensures Less(key, a, b) <==> Less(key, a', b')
  {
  }

  /** Results with equal artist names are not less than each other; in particular `<` is irreflexive. */
  lemma LessIrreflexive(key: CollationKey, a: SearchResult, b: SearchResult)
    requires a.artistName == b.artistName
    ensures !Less(key, a, b) && !Less(key, b, a)
  {
  }

  /** `<` is a strict weak order: asymmetric, and "not less" is transitive. */
  lemma LessStrictWeakOrder(key: CollationKey, a: SearchResult, b: SearchResult, c: SearchResult)
    ensures Less(key, a, b) ==> !Less(key, b, a)
    ensures !Less(key, b, a) && !Less(key, c, b) ==> !Less(key, c, a)
  {
  }

  /** Sorted by `<`: no result is less than one placed before it. */
  ghost predicate SortedByArtist(key: CollationKey, rs: seq<SearchResult>)
  {
    forall i, j :: 0 <= i < j < |rs| ==> !Less(key, rs[j], rs[i])
  }

  /**
   * `results.sort(by: <)`. The standard library's algorithm is not part of
   * this model; an insertion sort stands for it, and the lemmas below state
   * what any correct sort delivers.
   */
  function SortByArtist(key: CollationKey, rs: seq<SearchResult>): seq<SearchResult>
  {
    if rs == [] then [] else Insert(key, rs[0], SortByArtist(key, rs[1..]))
  }

  /** Places `x` before the first element that is not less than it. */
  function Insert(key: CollationKey, x: SearchResult, sorted: seq<SearchResult>): seq<SearchResult>
  {
    if sorted == [] || !Less(key, sorted[0], x) then [x] + sorted
    else [sorted[0]] + Insert(key, x, sorted[1..])
  }

  lemma {:induction false} InsertPermutes(key: CollationKey, x: SearchResult, sorted: seq<SearchResult>)
    ensures multiset(Insert(key, x, sorted)) == multiset(sorted) + multiset{x}
  {
    if sorted != [] && Less(key, sorted[0], x) {
      InsertPermutes(key, x, sorted[1..]);
      assert sorted == [sorted[0]] + sorted[1..];
    }
  }

  lemma {:induction false} InsertSorted(key: CollationKey, x: SearchResult, sorted: seq<SearchResult>)
    requires SortedByArtist(key, sorted)
    ensures SortedByArtist(key, Insert(key, x, sorted))
  {
    var r := Insert(key, x, sorted);
    if sorted == [] || !Less(key, sorted[0], x) {
      forall i, j | 0 <= i < j < |r| ensures !Less(key, r[j], r[i]) {
        if i == 0 {
          assert r[j] == sorted[j - 1];
          assert !Less(key, sorted[j - 1], sorted[0]);
        }
      }
    } else {
      var rest := Insert(key, x, sorted[1..]);
      InsertSorted(key, x, sorted[1..]);
      InsertPermutes(key, x, sorted[1..]);
      forall i, j | 0 <= i < j < |r| ensures !Less(key, r[j], r[i]) {
        if i == 0 {
          // r[j] is x or an element of sorted[1..]; neither is less than sorted[0]
          assert r[j] in multiset(rest);
          if r[j] != x {
            assert r[j] in multiset(sorted[1..]);
            var k :| 0 <= k < |sorted[1..]| && sorted[1..][k] == r[j];
            assert !Less(key, sorted[k + 1], sorted[0]);
          }
        } else {
          assert r[i] == rest[i - 1] && r[j] == rest[j - 1];
        }
      }
    }
  }

  /** Sorting rearranges the results and neither drops nor adds one. */
  lemma {:induction false} SortByArtistPermutes(key: CollationKey, rs: seq<SearchResult>)
    ensures multiset(SortByArtist(key, rs)) == multiset(rs)
    ensures |SortByArtist(key, rs)| == |rs|
  {
    if rs != [] {
      SortByArtistPermutes(key, rs[1..]);
      InsertPermutes(key, rs[0], SortByArtist(key, rs[1..]));
      assert rs == [rs[0]] + rs[1..];
    }
    assert |multiset(SortByArtist(key, rs))| == |multiset(rs)|;
  }

  /** After sorting, no result is less than one placed before it. */
  lemma {:induction false} SortByArtistSorted(key: CollationKey, rs: seq<SearchResult>)
    ensures SortedByArtist(key, SortByArtist(key, rs))
  {
    if rs != [] {
      SortByArtistSorted(key, rs[1..]);
      InsertSorted(key, rs[0], SortByArtist(key, rs[1..]));
    }
  }
}
