/**
 * Normalisation of an iTunes Search API response into `SearchResult`s:
 * `parse(dictionary:)` and the four per-shape parsers `parse(track:)`,
 * `parse(audiobook:)`, `parse(software:)` and `parse(ebook:)`.
 *
 * `Search` and the older `SearchViewController` carry two identical copies of
 * these functions; this module models both.
 *
 * Each per-shape parser force-casts its required keys (`as! String`); the
 * app traps when one is missing or is not a string. Here a per-shape parser
 * answers `None` where the source would trap, and a whole parse answers
 * `None` when any element it dispatches would trap.
 */
module Parsing {
  import opened Wrappers
  import opened Json
  import opened SearchResults

  /** The four record shapes the dispatch recognises. */
  datatype Shape = Track | Audiobook | Software | Ebook

  /**
   * The dispatch of `parse(dictionary:)` for one element of `results`: a
   * dictionary with a string `wrapperType` goes by that value; one without
   * goes to the ebook parser when its `kind` is the string "ebook".
   */
  function ShapeOf(e: Json): Option<Shape>
  {
    if !e.JObj? then None
    else
      match StringAt(e.fields, "wrapperType")
      case Some(wrapperType) =>
        if wrapperType == "track" then Some(Track)
        else if wrapperType == "audiobook" then Some(Audiobook)
        else if wrapperType == "software" then Some(Software)
        else None
      case None =>
        if StringAt(e.fields, "kind") == Some("ebook") then Some(Ebook) else None
  }

  // ---------------------------------------------------------------------
  // The field-mapping table, and normalisation driven by it

  /** Where a shape takes `kind` from. */
  datatype KindSource = KindField | FixedKind(kind: string)

  /** Where a shape takes `genre` from. */
  datatype GenreSource = PrimaryGenreName | JoinedGenres

  /** The source keys one shape reads. */
  datatype FieldMap = FieldMap(
    nameKey: string,
    storeKey: string,
    kindSource: KindSource,
    priceKey: string,
    genreSource: GenreSource)

  /** The mapping table of the four parsers, including the "trakePrice" key of the track parser. */
  function FieldsFor(shape: Shape): FieldMap
  {
    match shape
    case Track => FieldMap("trackName", "trackViewUrl", KindField, "trakePrice", PrimaryGenreName)
    case Audiobook => FieldMap("collectionName", "collectionViewUrl", FixedKind("audiobook"), "collectionPrice", PrimaryGenreName)
    case Software => FieldMap("trackName", "trackViewUrl", KindField, "price", PrimaryGenreName)
    case Ebook => FieldMap("trackName", "trackViewUrl", KindField, "price", JoinedGenres)
  }

  /** The price under `key` when it is a number, else the default 0.0. */
  function PriceOr(d: Dict, key: string): real
  {
    match NumberAt(d, key)
    case Some(p) => p
    case None => 0.0
  }

  /**
   * The genre a shape reads; `None` where the source traps (a `genres`
   * value that is not an array of strings).
   */
  function GenreFrom(src: GenreSource, d: Dict): Option<string>
  {
    match src
    case PrimaryGenreName =>
      (match StringAt(d, "primaryGenreName")
       case Some(g) => Some(g)
       case None => Some(""))
    case JoinedGenres =>
      if "genres" !in d then Some("")
      else if !d["genres"].JArr? then None
      else
        match StringsOf(d["genres"].items)
        case Some(genres) => Some(Join(genres, ", "))
        case None => None
  }

  /** The kind a shape records; `None` where the source traps. */
  function KindFrom(src: KindSource, d: Dict): Option<string>
  {
    match src
    case KindField => StringAt(d, "kind")
    case FixedKind(k) => Some(k)
  }

  /** Normalisation of one dictionary by the table row of `shape`. */
  function Normalize(shape: Shape, d: Dict): Option<SearchResult>
  {
    var m := FieldsFor(shape);
    var name := StringAt(d, m.nameKey);
    var artist := StringAt(d, "artistName");
    var small := StringAt(d, "artworkUrl60");
    var large := StringAt(d, "artworkUrl100");
    var store := StringAt(d, m.storeKey);
    var kind := KindFrom(m.kindSource, d);
    var currency := StringAt(d, "currency");
    var genre := GenreFrom(m.genreSource, d);
    if name.None? || artist.None? || small.None? || large.None? || store.None?
       || kind.None? || currency.None? || genre.None?
    then None
    else
      Some(SearchResult(
        name := name.value,
        artistName := artist.value,
        artworkSmallURL := small.value,
        artworkLargeURL := large.value,
        storeURL := store.value,
        kind := kind.value,
        currency := currency.value,
        price := PriceOr(d, m.priceKey),
        genre := genre.value))
  }

  /** The keys a shape's parser looks at. */
  function KeysRead(shape: Shape): set<string>
  {
    var m := FieldsFor(shape);
    {m.nameKey, "artistName", "artworkUrl60", "artworkUrl100", m.storeKey, "currency", m.priceKey}
    + (if m.kindSource.KindField? then {"kind"} else {})
    + (if m.genreSource.PrimaryGenreName? then {"primaryGenreName"} else {"genres"})
  }

  // ---------------------------------------------------------------------
  // The four per-shape parsers, field by field as the source assigns them

  /** `parse(track:)`. */
  method ParseTrack(d: Dict) returns (r: Option<SearchResult>)
    ensures r == Normalize(Track, d)
  {
    var result := NewSearchResult();
    var kind := StringAt(d, "kind");
    var name := StringAt(d, "trackName");
    var currency := StringAt(d, "currency");
    var artist := StringAt(d, "artistName");
    var store := StringAt(d, "trackViewUrl");
    var small := StringAt(d, "artworkUrl60");
    var large := StringAt(d, "artworkUrl100");
    if kind.None? || name.None? || currency.None? || artist.None? || store.None? || small.None? || large.None? {
      return None;
    }
    result := result.(kind := kind.value);
    result := result.(name := name.value);
    result := result.(currency := currency.value);
    result := result.(artistName := artist.value);
    result := result.(storeURL := store.value);
    result := result.(artworkSmallURL := small.value);
    result := result.(artworkLargeURL := large.value);
    var price := NumberAt(d, "trakePrice");
    if price.Some? {
      result := result.(price := price.value);
    }
    var genre := StringAt(d, "primaryGenreName");
    if genre.Some? {
      result := result.(genre := genre.value);
    }
    return Some(result);
  }

  /** `parse(audiobook:)`: audiobooks carry no `kind`; it is fixed to "audiobook". */
  method ParseAudiobook(d: Dict) returns (r: Option<SearchResult>)
    ensures r == Normalize(Audiobook, d)
  {
    var result := NewSearchResult();
    var name := StringAt(d, "collectionName");
    var artist := StringAt(d, "artistName");
    var small := StringAt(d, "artworkUrl60");
    var large := StringAt(d, "artworkUrl100");
    var store := StringAt(d, "collectionViewUrl");
    var currency := StringAt(d, "currency");
    if name.None? || artist.None? || small.None? || large.None? || store.None? || currency.None? {
      return None;
    }
    result := result.(name := name.value);
    result := result.(artistName := artist.value);
    result := result.(artworkSmallURL := small.value);
    result := result.(artworkLargeURL := large.value);
    result := result.(storeURL := store.value);
    result := result.(kind := "audiobook");
    result := result.(currency := currency.value);
    var price := NumberAt(d, "collectionPrice");
    if price.Some? {
      result := result.(price := price.value);
    }
    var genre := StringAt(d, "primaryGenreName");
    if genre.Some? {
      result := result.(genre := genre.value);
    }
    return Some(result);
  }

  /** `parse(software:)`. */
  method ParseSoftware(d: Dict) returns (r: Option<SearchResult>)
    ensures r == Normalize(Software, d)
  {
    var result := NewSearchResult();
    var name := StringAt(d, "trackName");
    var artist := StringAt(d, "artistName");
    var small := StringAt(d, "artworkUrl60");
    var large := StringAt(d, "artworkUrl100");
    var store := StringAt(d, "trackViewUrl");
    var kind := StringAt(d, "kind");
    var currency := StringAt(d, "currency");
    if name.None? || artist.None? || small.None? || large.None? || store.None? || kind.None? || currency.None? {
      return None;
    }
    result := result.(name := name.value);
    result := result.(artistName := artist.value);
    result := result.(artworkSmallURL := small.value);
    result := result.(artworkLargeURL := large.value);
    result := result.(storeURL := store.value);
    result := result.(kind := kind.value);
    result := result.(currency := currency.value);
    var price := NumberAt(d, "price");
    if price.Some? {
      result := result.(price := price.value);
    }
    var genre := StringAt(d, "primaryGenreName");
    if genre.Some? {
      result := result.(genre := genre.value);
    }
    return Some(result);
  }

  /** `parse(ebook:)`: the genre is the `genres` array joined with ", ". */
  method ParseEbook(d: Dict) returns (r: Option<SearchResult>)
    ensures r == Normalize(Ebook, d)
  {
    var result := NewSearchResult();
    var name := StringAt(d, "trackName");
    var artist := StringAt(d, "artistName");
    var small := StringAt(d, "artworkUrl60");
    var large := StringAt(d, "artworkUrl100");
    var store := StringAt(d, "trackViewUrl");
    var kind := StringAt(d, "kind");
    var currency := StringAt(d, "currency");
    if name.None? || artist.None? || small.None? || large.None? || store.None? || kind.None? || currency.None? {
      return None;
    }
    result := result.(name := name.value);
    result := result.(artistName := artist.value);
    result := result.(artworkSmallURL := small.value);
    result := result.(artworkLargeURL := large.value);
    result := result.(storeURL := store.value);
    result := result.(kind := kind.value);
    result := result.(currency := currency.value);
    var price := NumberAt(d, "price");
    if price.Some? {
      result := result.(price := price.value);
    }
    if "genres" in d {
      var genres := d["genres"];
      if !genres.JArr? {
        return None;
      }
      var names := StringsOf(genres.items);
      if names.None? {
        return None;
      }
      result := result.(genre := Join(names.value, ", "));
    }
    return Some(result);
  }

  // ---------------------------------------------------------------------
  // The whole response

  /** What happens to one element of `results`. */
  datatype ElementOutcome = Skipped | Parsed(result: SearchResult) | Trapped

  function ParseElement(e: Json): ElementOutcome
  {
    match ShapeOf(e)
    case None => Skipped
    case Some(shape) =>
      match Normalize(shape, e.fields)
      case Some(r) => Parsed(r)
      case None => Trapped
  }

  /** The results of a sequence of elements, in encounter order; `None` once one traps. */
  function ParseResults(elems: seq<Json>): Option<seq<SearchResult>>
  {
    if elems == [] then Some([])
    else
      match ParseResults(elems[..|elems| - 1])
      case None => None
      case Some(prefix) =>
        match ParseElement(elems[|elems| - 1])
        case Skipped => Some(prefix)
        case Parsed(r) => Some(prefix + [r])
        case Trapped => None
  }

  /** Once an element traps, no later element can undo it. */
  lemma {:induction false} TrapPersists(elems: seq<Json>, i: nat)
    requires i <= |elems|
    requires ParseResults(elems[..i]) == None
    ensures ParseResults(elems) == None
    decreases |elems| - i
  {
    if i < |elems| {
      assert elems[..i + 1][..i] == elems[..i];
      TrapPersists(elems, i + 1);
    } else {
      assert elems[..i] == elems;
    }
  }

  /** The whole of `parse(dictionary:)`: no `results` array means no results. */
  function ResultsOf(d: Dict): Option<seq<SearchResult>>
  {
    if "results" in d && d["results"].JArr? then ParseResults(d["results"].items) else Some([])
  }

  /** `parse(dictionary:)`: walks `results`, dispatches each element, appends what the parsers return. */
  method ParseDictionary(d: Dict) returns (r: Option<seq<SearchResult>>)
    ensures r == ResultsOf(d)
    ensures !("results" in d && d["results"].JArr?) ==> r == Some([])
  {
    if !("results" in d && d["results"].JArr?) {
      return Some([]);
    }
    var items := d["results"].items;
    var searchResults: seq<SearchResult> := [];
    for i := 0 to |items|
      invariant ParseResults(items[..i]) == Some(searchResults)
    {
      assert items[..i + 1][..i] == items[..i];
      var element := items[i];
      if element.JObj? {
        var fields := element.fields;
        var searchResult: Option<SearchResult> := None;
        var dispatched := true;
        var wrapperType := StringAt(fields, "wrapperType");
        if wrapperType.Some? {
          if wrapperType.value == "track" {
            searchResult := ParseTrack(fields);
          } else if wrapperType.value == "audiobook" {
            searchResult := ParseAudiobook(fields);
          } else if wrapperType.value == "software" {
            searchResult := ParseSoftware(fields);
          } else {
            dispatched := false;
          }
        } else if StringAt(fields, "kind") == Some("ebook") {
          searchResult := ParseEbook(fields);
        } else {
          dispatched := false;
        }
        if dispatched {
          if searchResult.None? {
            TrapPersists(items, i + 1);
            return None;
          }
          searchResults := searchResults + [searchResult.value];
        }
      }
    }
    assert items[..|items|] == items;
    return Some(searchResults);
  }

  // ---------------------------------------------------------------------
  // Properties of the dispatch and of the parsers

  /**
   * The dispatch: `wrapperType` "track", "audiobook" or "software" picks its
   * parser; any other string `wrapperType` drops the element, whatever its
   * `kind`; without a string `wrapperType`, `kind` "ebook" picks the ebook
   * parser; an element that is not a dictionary is skipped.
   */
  lemma DispatchRules(e: Json)
    ensures !e.JObj? ==> ParseElement(e) == Skipped
    ensures e.JObj? ==>
      var w := StringAt(e.fields, "wrapperType");
      && (ShapeOf(e) == Some(Track) <==> w == Some("track"))
      && (ShapeOf(e) == Some(Audiobook) <==> w == Some("audiobook"))
      && (ShapeOf(e) == Some(Software) <==> w == Some("software"))
      && (ShapeOf(e) == Some(Ebook) <==> w == None && StringAt(e.fields, "kind") == Some("ebook"))
    ensures ShapeOf(e) == None ==> ParseElement(e) == Skipped
  {
  }

  /**
   * The output is exactly the elements that parse, in encounter order: a
   * subsequence of the input picked by increasing indices, so never longer
   * than the input.
   */
  lemma {:induction false} ParsedInEncounterOrder(elems: seq<Json>) returns (idx: seq<nat>)
    requires ParseResults(elems).Some?
    ensures |idx| == |ParseResults(elems).value| <= |elems|
    ensures forall k :: 0 <= k < |idx| ==>
      idx[k] < |elems| && ParseElement(elems[idx[k]]) == Parsed(ParseResults(elems).value[k])
    ensures forall k, l :: 0 <= k < l < |idx| ==> idx[k] < idx[l]
    ensures forall i :: 0 <= i < |elems| && ParseElement(elems[i]).Parsed? ==> i in idx
  {
    if elems == [] {
      return [];
    }
    var n := |elems| - 1;
    var prefix := elems[..n];
    var before := ParsedInEncounterOrder(prefix);
    var rs := ParseResults(elems).value;
    match ParseElement(elems[n])
    case Skipped =>
      idx := before;
    case Parsed(r) =>
      idx := before + [n];
      assert rs == ParseResults(prefix).value + [r];
    case Trapped =>
      assert false;
  }

  /** A parse traps exactly when one of the elements it dispatches traps. */
  lemma {:induction false} TrapsIffSomeElementTraps(elems: seq<Json>)
    ensures ParseResults(elems).None? <==> exists i :: 0 <= i < |elems| && ParseElement(elems[i]).Trapped?
  {
    if elems != [] {
      var n := |elems| - 1;
      TrapsIffSomeElementTraps(elems[..n]);
      if ParseResults(elems[..n]).None? {
        var i :| 0 <= i < n && ParseElement(elems[..n][i]).Trapped?;
        assert ParseElement(elems[i]).Trapped?;
      }
    }
  }

  /**
   * The track parser: it needs `kind`, `trackName`, `currency`,
   * `artistName`, `trackViewUrl`, `artworkUrl60` and `artworkUrl100` as
   * strings; it takes `kind` from the `kind` field, the price only from the
   * key "trakePrice" and the genre only from `primaryGenreName`, each left at
   * its default when absent.
   */
  lemma TrackParse(d: Dict)
    ensures Normalize(Track, d).Some? <==>
      && StringAt(d, "kind").Some? && StringAt(d, "trackName").Some? && StringAt(d, "currency").Some?
      && StringAt(d, "artistName").Some? && StringAt(d, "trackViewUrl").Some?
      && StringAt(d, "artworkUrl60").Some? && StringAt(d, "artworkUrl100").Some?
    ensures Normalize(Track, d).Some? ==>
      var r := Normalize(Track, d).value;
      && d["kind"] == JStr(r.kind) && d["trackName"] == JStr(r.name) && d["currency"] == JStr(r.currency)
      && d["artistName"] == JStr(r.artistName) && d["trackViewUrl"] == JStr(r.storeURL)
      && d["artworkUrl60"] == JStr(r.artworkSmallURL) && d["artworkUrl100"] == JStr(r.artworkLargeURL)
      && r.price == (if "trakePrice" in d && d["trakePrice"].JNum? then d["trakePrice"].n else 0.0)
      && r.genre == (if "primaryGenreName" in d && d["primaryGenreName"].JStr? then d["primaryGenreName"].s else "")
  {
  }

  /**
   * The audiobook parser: `kind` is the literal "audiobook" whatever the
   * dictionary holds; name, store link and price come from
   * `collectionName`, `collectionViewUrl` and `collectionPrice`, and the
   * artist, artwork and currency from their own keys.
   */
  lemma AudiobookParse(d: Dict)
    ensures Normalize(Audiobook, d).Some? <==>
      && StringAt(d, "collectionName").Some? && StringAt(d, "artistName").Some?
      && StringAt(d, "artworkUrl60").Some? && StringAt(d, "artworkUrl100").Some?
      && StringAt(d, "collectionViewUrl").Some? && StringAt(d, "currency").Some?
    ensures Normalize(Audiobook, d).Some? ==>
      var r := Normalize(Audiobook, d).value;
      && r.kind == "audiobook"
      && d["collectionName"] == JStr(r.name) && d["collectionViewUrl"] == JStr(r.storeURL)
      && d["artistName"] == JStr(r.artistName) && d["currency"] == JStr(r.currency)
      && d["artworkUrl60"] == JStr(r.artworkSmallURL) && d["artworkUrl100"] == JStr(r.artworkLargeURL)
      && r.price == (if "collectionPrice" in d && d["collectionPrice"].JNum? then d["collectionPrice"].n else 0.0)
      && r.genre == (if "primaryGenreName" in d && d["primaryGenreName"].JStr? then d["primaryGenreName"].s else "")
  {
  }

  /**
   * The software parser: every required field comes from its key, the
   * price from `price` and the genre from `primaryGenreName`.
   */
  lemma SoftwareParse(d: Dict)
    ensures Normalize(Software, d).Some? <==>
      && StringAt(d, "trackName").Some? && StringAt(d, "artistName").Some?
      && StringAt(d, "artworkUrl60").Some? && StringAt(d, "artworkUrl100").Some?
      && StringAt(d, "trackViewUrl").Some? && StringAt(d, "kind").Some? && StringAt(d, "currency").Some?
    ensures Normalize(Software, d).Some? ==>
      var r := Normalize(Software, d).value;
      && d["kind"] == JStr(r.kind) && d["trackName"] == JStr(r.name) && d["trackViewUrl"] == JStr(r.storeURL)
      && d["artistName"] == JStr(r.artistName) && d["currency"] == JStr(r.currency)
      && d["artworkUrl60"] == JStr(r.artworkSmallURL) && d["artworkUrl100"] == JStr(r.artworkLargeURL)
      && r.price == (if "price" in d && d["price"].JNum? then d["price"].n else 0.0)
      && r.genre == (if "primaryGenreName" in d && d["primaryGenreName"].JStr? then d["primaryGenreName"].s else "")
  {
  }

  /**
   * The ebook parser: the genre is the `genres` array joined with ", ",
   * empty when `genres` is absent; a `genres` value that is not an array of
   * strings traps.
   */
  lemma EbookGenre(d: Dict)
    requires StringAt(d, "trackName").Some? && StringAt(d, "artistName").Some?
    requires StringAt(d, "artworkUrl60").Some? && StringAt(d, "artworkUrl100").Some?
    requires StringAt(d, "trackViewUrl").Some? && StringAt(d, "kind").Some? && StringAt(d, "currency").Some?
    ensures "genres" !in d ==> Normalize(Ebook, d).Some? && Normalize(Ebook, d).value.genre == ""
    ensures "genres" in d && d["genres"].JArr? && (forall i :: 0 <= i < |d["genres"].items| ==> d["genres"].items[i].JStr?) ==>
      Normalize(Ebook, d).Some? &&
      Normalize(Ebook, d).value.genre == Join(StringsOf(d["genres"].items).value, ", ")
    ensures "genres" in d && !d["genres"].JArr? ==> Normalize(Ebook, d) == None
    ensures "genres" in d && d["genres"].JArr? && StringsOf(d["genres"].items).None? ==> Normalize(Ebook, d) == None
  {
  }

  /** A parser ignores every key outside its row of the table. */
  lemma NormalizeReadsOnlyItsKeys(shape: Shape, d: Dict, k: string, v: Json)
    requires k !in KeysRead(shape)
    ensures Normalize(shape, d[k := v]) == Normalize(shape, d)
  {
  }

  /**
   * A track's price is read under "trakePrice" only: whatever the response
   * holds under "trackPrice" or "price" does not change the parsed result.
   */
  lemma TrackPriceOnlyFromTrakePrice(d: Dict, v: Json)
    ensures Normalize(Track, d["trackPrice" := v]) == Normalize(Track, d)
    ensures Normalize(Track, d["price" := v]) == Normalize(Track, d)
  {
  }
}
