/**
 * The older, synchronous search screen (`SearchViewController` under
 * `StoreSearch/`): a search-bar click that fetches, parses and sorts on the
 * spot, and the table data source and delegate that show the results.
 *
 * Its `parse(dictionary:)` family and its `kindForDisplay` are the same code
 * as the service's copies and are modelled once, by `Parsing` and
 * `SearchResult.KindForDisplay`.
 */
module LegacySearch {
  import opened Wrappers
  import opened Json
  import opened SearchResults
  import Parsing
  import SearchService

  /** `iTunesURL(searchText:)`, given the already percent-escaped text: the prefix and the term, nothing more. */
  function LegacyURL(escapedText: string): string
  {
    SearchService.SearchPrefix + escapedText
  }

  /**
   * The old request is the new one without its tail: the service's URL for
   * any category extends it with the limit and entity parameters.
   */
  lemma LegacyURLIsPrefixOfServiceURL(escapedText: string, c: SearchService.Category)
    ensures LegacyURL(escapedText) < SearchService.ITunesURL(escapedText, c)
    ensures SearchService.ITunesURL(escapedText, c) == LegacyURL(escapedText) + "&limit=200&entity=" + SearchService.EntityName(c)
  {
  }

  /** The second line of a result cell: "Unknown" without an artist, otherwise the artist and the kind's label. */
  function ArtistLabel(r: SearchResult): string
  {
    if r.artistName == "" then "Unknown" else r.artistName + " (" + r.KindForDisplay() + ")"
  }

  /** A table cell: the "nothing found" cell, or a result cell with its two labels. */
  datatype Cell = NothingFoundCell | ResultCell(nameText: string, artistText: string)

  /** How a search-bar click ends. */
  datatype ClickOutcome =
    | Ignored      // empty search text
    | Reloaded     // the table was reloaded with the parsed, sorted results
    | ErrorShown   // the download or the JSON decoding failed and the alert was shown
    | Trapped      // a forced cast in a parser failed

  class SearchViewController {
    var searchResults: seq<SearchResult>
    var hasSearched: bool

    /** Nothing is shown before the first search. */
    ghost predicate Valid()
      reads this
    {
      !hasSearched ==> searchResults == []
    }

    constructor ()
      ensures Valid() && !hasSearched && searchResults == []
    {
      searchResults := [];
      hasSearched := false;
    }

    /**
     * `numberOfRowsInSection`: no rows before the first search, a single
     * "nothing found" row after a search without results, one row per
     * result otherwise.
     */
    function NumberOfRows(): (n: nat)
      reads this
      ensures n == 0 <==> !hasSearched
      ensures hasSearched ==> n == if searchResults == [] then 1 else |searchResults|
    {
      if !hasSearched then 0
      else if |searchResults| == 0 then 1
      else |searchResults|
    }

    /**
     * `cellForRowAt`: the "nothing found" cell exactly when there are no
     * results, otherwise the cell of the result in that row. Every row the
     * table can ask for has a cell.
     */
    function CellForRow(row: nat): (c: Cell)
      reads this
      requires row < NumberOfRows()
      ensures c.NothingFoundCell? <==> searchResults == []
      ensures c.ResultCell? ==>
        row < |searchResults| && c.nameText == searchResults[row].name
        && c.artistText == ArtistLabel(searchResults[row])
    {
      if |searchResults| == 0 then NothingFoundCell
      else ResultCell(searchResults[row].name, ArtistLabel(searchResults[row]))
    }

    /** `willSelectRowAt`: the proposed row is kept, except that nothing is selectable without results. */
    function WillSelectRow(row: nat): (selected: Option<nat>)
      reads this
      ensures selected == None <==> searchResults == []
      ensures selected != None ==> selected.value == row
    {
      if |searchResults| == 0 then None else Some(row)
    }

    /**
     * `searchBarSearchButtonClicked`. Empty text does nothing. Otherwise the
     * screen is marked as searched and emptied, the URL is built from the
     * escaped text, and `response` stands for what `performStoreRequest`
     * and `parse(json:)` deliver: `None` when the download or the decoding
     * failed. A JSON object is parsed and sorted by artist; anything else
     * shows the alert and leaves the table empty.
     */
    method SearchButtonClicked(text: string, escape: string -> string, response: Option<Json>, key: CollationKey)
      returns (url: Option<string>, outcome: ClickOutcome)
      modifies this
      ensures text == "" ==> url == None && outcome == Ignored && unchanged(this)
      ensures text != "" ==> url == Some(LegacyURL(escape(text))) && hasSearched
      ensures text != "" ==> match response
        case Some(JObj(d)) =>
          (match Parsing.ResultsOf(d)
           case Some(rs) => outcome == Reloaded && searchResults == SortByArtist(key, rs)
           case None => outcome == Trapped && searchResults == [])
        case _ => outcome == ErrorShown && searchResults == []
      ensures old(Valid()) ==> Valid()
    {
      if text == "" {
        return None, Ignored;
      }
      hasSearched := true;
      searchResults := [];
      url := Some(LegacyURL(escape(text)));
      if response.Some? && response.value.JObj? {
        var parsed := Parsing.ParseDictionary(response.value.fields);
        if parsed.None? {
          return url, Trapped;
        }
        searchResults := SortByArtist(key, parsed.value);
        return url, Reloaded;
      }
      outcome := ErrorShown;
    }
  }

  /**
   * The table always has a row for every result, the rows are exactly the
   * results once there are any, and after a search that found nothing the
   * one row is the "nothing found" cell, which cannot be selected.
   */
  lemma RowsShowResults(vc: SearchViewController, row: nat)
    requires vc.Valid()
    ensures |vc.searchResults| <= vc.NumberOfRows()
    ensures vc.searchResults != [] ==> vc.NumberOfRows() == |vc.searchResults|
    ensures row < |vc.searchResults| ==>
      vc.CellForRow(row) == ResultCell(vc.searchResults[row].name, ArtistLabel(vc.searchResults[row]))
      && vc.WillSelectRow(row) == Some(row)
    ensures vc.hasSearched && vc.searchResults == [] ==>
      vc.NumberOfRows() == 1 && vc.CellForRow(0) == NothingFoundCell && vc.WillSelectRow(0) == None
  {
  }
}
