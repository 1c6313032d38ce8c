# StoreSearch in Dafny

A model of the core of StoreSearch, an iOS app that searches the iTunes
Store. The model covers five parts:

- **The search service** (`Search.swift`, module `SearchService`): the
  category filter and its entity tokens, and the request URL. It also
  covers the state machine `notSearchYet → loading → noResults | results`
  and the completion handler of the data task. Only the latest task is
  outstanding; every earlier task has been cancelled.
- **Normalisation of an iTunes Search API response** (module `Parsing`).
  `parse(dictionary:)` dispatches each element of `results` on
  `wrapperType`, with a `kind == "ebook"` fallback, to one of four
  per-shape parsers. Each parser fills a `SearchResult`.
- **The result value and its ordering** (`StoreSearch/SearchResult.swift`,
  module `SearchResults`). This covers the display label of `kind` and the
  `<` operator on artist names used to sort results.
- **The older synchronous search screen**
  (`StoreSearch/SearchViewController.swift`, module `LegacySearch`). This
  covers the search-bar click and the table's row count, cells and
  selection.
- **The landscape screen** (`LandscapeViewController.swift`, module
  `Landscape`). This covers:
  - the grid chosen from the screen width;
  - the `row`/`column`/`x` placement loop for the 82×82 buttons;
  - the page count, computed with Swift's truncating integer division;
  - the one-time layout guarded by `firstTime`;
  - the state dispatch of `searchResultsReceived`.

JSON values are the Foundation objects `JSONSerialization` produces (module
`Json`). A forced cast `as!` that would crash the app is modelled as an
explicit "trapped" outcome:
- a per-shape parser returns `None`;
- a whole parse returns `None` as soon as one dispatched element traps;
- the handlers report `Trapped`.

`StoreSearch/SearchViewController.swift` holds its own copies of
`parse(dictionary:)`, the four per-shape parsers and `kindForDisplay`. They
are the same code as the copies in `Search.swift` and `SearchResult.swift`,
so each is modelled once and cited for both.

The model follows the code as written, including these quirks:
- The software entity token is `"sotfware"`, as written (`Search.swift:41`).
  The iTunes Search API's entity for apps is `"software"`.
- The track parser reads the price under the key `"trakePrice"`, as written
  (`Search.swift:281`). A response's `trackPrice` is therefore never read.
  A track gets a price only when the response has a numeric `"trakePrice"`;
  otherwise it keeps the default 0.0.
- The completion handler sets `state` to `notSearchYet` before it checks for
  the cancellation error -999 (`Search.swift:125` and `134-137`). A task that
  is cancelled because a newer search superseded it therefore resets the
  state, even while the newer task is still loading.
  `SearchService.SupersededSearch` builds that run.
- The page count `1 + (count - 1) / buttonsPerPage` uses truncating division,
  so an empty result list gives one page.

## Model

Functions that only compute have no row of their own; the rows of the lemmas and methods about them say what they mean: `SearchService.EntityName` by `EntityNameTable` and `EntityNameInjective`, `SearchService.ITunesURL` by `DecodeURLRoundTrip` and `LegacySearch.LegacyURLIsPrefixOfServiceURL`, `SearchService.CompletionOf` by `CompletionTerminal`, `ResultsNonEmptySorted` and `Search.Complete`, `SearchResults.Less` by `LessReadsArtistOnly`, `LessIrreflexive` and `LessStrictWeakOrder`, `SearchResults.SortByArtist` by `SortByArtistPermutes` and `SortByArtistSorted`, `Parsing.ShapeOf` by `DispatchRules`, `Parsing.Normalize` by `NormalizeReadsOnlyItsKeys` and the per-kind `Parse*` methods and lemmas, `Landscape.GridFor` by `GridTable`, `Landscape.NumPages` by `NumPagesIsCeiling`, `Json.Join` by `JoinAppend` and `JoinLength`, and `LegacySearch.LegacyURL` by `LegacyURLIsPrefixOfServiceURL`.

| member | source | states |
|---|---|---|
| Json.StringAt | Search.swift:270-282 | `dict[key] as? String` succeeds exactly when the key is present and holds a string, and gives that string |
| Json.NumberAt | Search.swift:281 | `dict[key] as? Double` succeeds exactly when the key is present and holds a number, and gives that number |
| Json.StringsOf | Search.swift:336 | `as! [String]` succeeds exactly when every element is a string; the result has the same length and holds each element's string |
| Json.JoinAppend | Search.swift:336 | `joined(separator:)` of one part is that part, and appending a part to a non-empty list appends one separator and that part to the joined string |
| Json.JoinLength | Search.swift:336 | the joined string's length is the parts' total length plus one separator for each neighbouring pair, and the empty list joins to "" |
| SearchResults.SearchResult.KindForDisplay | StoreSearch/SearchResult.swift:25-39 | the ten known `kind` values map to their labels ("Album", "Audio Book", …, "TV Episode"); any other kind is shown as is |
| SearchResults.NewSearchResult | StoreSearch/SearchResult.swift:12-21 | a new result has every string field empty and price 0.0 |
| SearchResults.KindForDisplayReadsKindOnly | StoreSearch/SearchResult.swift:25-39 | results that agree on `kind` get the same label |
| SearchResults.CompareConverse | StoreSearch/SearchResult.swift:46-48 | swapping the operands of the collation comparison swaps ascending and descending and keeps "same" |
| SearchResults.LessReadsArtistOnly | StoreSearch/SearchResult.swift:46-48 | `<` depends on the two artist names only |
| SearchResults.LessIrreflexive | StoreSearch/SearchResult.swift:46-48 | results with equal artist names are not less than each other in either direction |
| SearchResults.LessStrictWeakOrder | StoreSearch/SearchResult.swift:46-48 | `<` is asymmetric and its complement is transitive, so it is a valid `sort(by:)` predicate |
| SearchResults.SortByArtistPermutes | Search.swift:154 | sorting by `<` neither drops nor adds a result: same multiset, same length |
| SearchResults.SortByArtistSorted | Search.swift:154 | after sorting, no result is less than one placed before it |
| Parsing.ParseTrack | Search.swift:265-285 | the field-by-field track parser agrees with the table-driven normalisation, trapping on a missing required string |
| Parsing.ParseAudiobook | Search.swift:287-303 | the field-by-field audiobook parser agrees with the table-driven normalisation |
| Parsing.ParseSoftware | Search.swift:305-319 | the field-by-field software parser agrees with the table-driven normalisation |
| Parsing.ParseEbook | Search.swift:321-338 | the field-by-field ebook parser agrees with the table-driven normalisation, trapping on a `genres` that is not an array of strings |
| Parsing.ParseDictionary | Search.swift:229-263 | the loop over `results` yields the results of the dispatched elements in order; no `results` array gives an empty list; a trapping element makes the whole parse trap |
| Parsing.DispatchRules | Search.swift:244-257 | wrapperType "track", "audiobook" or "software" picks that parser; any other wrapperType string drops the element; without a string wrapperType, kind "ebook" picks the ebook parser; non-dictionaries are skipped |
| Parsing.ParsedInEncounterOrder | Search.swift:240-262 | the output is exactly the parsed elements, picked by strictly increasing indices, so it keeps encounter order and is never longer than `results` |
| Parsing.TrapsIffSomeElementTraps | Search.swift:240-260 | a parse traps if and only if some dispatched element traps |
| Parsing.TrackParse | Search.swift:265-285 | a track parses iff its seven required keys hold strings; each field comes from its key; price only from "trakePrice" and genre only from "primaryGenreName", else their defaults |
| Parsing.AudiobookParse | Search.swift:287-303 | an audiobook parses iff its six required keys hold strings; kind is always "audiobook"; name, link and price come from the collection keys; artist, artwork and currency come from their own keys |
| Parsing.SoftwareParse | Search.swift:305-319 | a software item parses iff its seven required keys hold strings; each field comes from its key, the price from "price" and the genre from "primaryGenreName" |
| Parsing.EbookGenre | Search.swift:321-338 | an ebook's genre is empty without `genres`, the strings joined with ", " for an array of strings, and a trap for any other `genres` value |
| Parsing.NormalizeReadsOnlyItsKeys | Search.swift:265-338 | changing a key outside a parser's row of the table does not change what it parses |
| Parsing.TrackPriceOnlyFromTrakePrice | Search.swift:281 | a track's parse does not depend on "trackPrice" or "price" |
| SearchService.CategoryRawRoundTrip | Search.swift:27-31 | `Category(rawValue:)` succeeds exactly on 0…3 and inverts `rawValue` |
| SearchService.EntityNameTable | Search.swift:37-43 | the entity tokens are "", "musicTrack", "sotfware" and "ebook" |
| SearchService.EntityNameInjective | Search.swift:37-43 | different categories send different entity tokens |
| SearchService.DecodeURLRoundTrip | Search.swift:192-209 | the request URL determines the escaped term and the category it was built from |
| SearchService.CompletionTerminal | Search.swift:121-179 | the handler never leaves `loading`. Error -999 resets to `notSearchYet` without a callback, and it is the only way to skip the callback. Only a dictionary response whose parse traps gives a trap. It reports success iff a 200 dictionary response parses: `noResults` for none, `results` for a sorted permutation of them. Anything else gives `notSearchYet` and failure |
| SearchService.ResultsNonEmptySorted | Search.swift:141-161 | a `results` state is never empty and is sorted by artist |
| SearchService.Search.constructor | Search.swift:67-82 | a new service is in `notSearchYet` with no data task |
| SearchService.Search.PerformSearch | Search.swift:94-186 | empty text changes nothing. Otherwise the previous task is cancelled and the state becomes `loading`. A new, uncancelled task for the category's URL becomes the latest. At most one task stays uncancelled |
| SearchService.Search.Complete | Search.swift:121-179 | the handler's new state and exit are those of `CompletionOf`, and `completion(success)` is recorded exactly when it is called |
| SearchService.SupersededSearch | Search.swift:102-137 | after a second search supersedes the first and the first task's handler reports -999, the state reads `notSearchYet` while the second task is outstanding, and no callback is made |
| Landscape.GridTable | LandscapeViewController.swift:216-249 | paddings 7 and 3 for every width. Width 568 gives 6×3 cells of 94×88, marginX 2. Width 667 gives 7×3 of 95×98, margins 1 and 29. Width 736 gives 8×4 of 92×88. Any other width gives 5×3 of 96×88 with marginY 20 |
| Landscape.PageWidthIsScreenWidth | LandscapeViewController.swift:216-249 | for 480, 568, 667 and 736 points, the columns of one page plus two horizontal margins fill exactly one screen width |
| Landscape.PlaceButtons | LandscapeViewController.swift:252-299 | the `row`/`column`/`x` loop gives button k the frame `(x + paddingHorz, marginY + row*itemHeight + paddingVert, 82, 82)` at its closed-form column, row and page |
| Landscape.ButtonWithinItsPage | LandscapeViewController.swift:252-299 | on the four known screens every button lies horizontally inside its own screen-wide page and vertically inside its row's cell |
| Landscape.NumPagesIsCeiling | LandscapeViewController.swift:306-307 | for count ≥ 1 the page count is the ceiling of count over buttons per page. For count 0 it is 1 (0 for one-button pages) |
| Landscape.ButtonsFitPages | LandscapeViewController.swift:306-307 | for any grid, every placed button's page (its column divided by the columns per page) is below the page count |
| Landscape.ButtonsWithinContent | LandscapeViewController.swift:271-310 | on the four known screens every button's frame lies between 0 and the content width, the page count times the screen width |
| Landscape.LandscapeViewController.constructor | LandscapeViewController.swift:20-87 | a loaded controller has `firstTime` set, no buttons and a page control with no dots |
| Landscape.LandscapeViewController.TitleButtons | LandscapeViewController.swift:214-319 | it appends one button per result at the grid's frames. Page count, current page 0 and content width are set from the grid for that width |
| Landscape.LandscapeViewController.ShowSpinner | LandscapeViewController.swift:182-188 | one more spinner is on screen |
| Landscape.LandscapeViewController.HideSpinner | LandscapeViewController.swift:363-367 | the spinner the tag lookup finds, if any, is removed |
| Landscape.LandscapeViewController.ShowNothingFoundLabel | LandscapeViewController.swift:153-169 | one more "Nothing Found" label is on screen |
| Landscape.LandscapeViewController.ViewWillLayoutSubviews | LandscapeViewController.swift:96-130 | `firstTime` ends false. A later pass changes nothing. The first pass does nothing for `notSearchYet`, shows a spinner for `loading`, the label for `noResults` and the buttons for `results` |
| Landscape.LandscapeViewController.SearchResultsReceived | LandscapeViewController.swift:349-361 | the spinner goes. Then nothing happens for `notSearchYet` or `loading`, the label appears for `noResults`, and buttons are laid out for `results` |
| Landscape.LayoutTwice | LandscapeViewController.swift:115-129 | two layout passes with results leave exactly one button per result and the page count of one layout |
| LegacySearch.LegacyURLIsPrefixOfServiceURL | StoreSearch/SearchViewController.swift:65-77 | the old request URL (prefix and term) is a proper prefix of the service's URL for any category, which adds only the limit and entity parameters |
| LegacySearch.SearchViewController.constructor | StoreSearch/SearchViewController.swift:21-22 | the screen starts unsearched with no results |
| LegacySearch.SearchViewController.NumberOfRows | StoreSearch/SearchViewController.swift:314-328 | there are no rows exactly before the first search; after it there is one row when there are no results, else one per result |
| LegacySearch.SearchViewController.CellForRow | StoreSearch/SearchViewController.swift:331-352 | every row the table can ask for has a cell. It is the "nothing found" cell exactly when there are no results, else the row's name and "Unknown" or "artist (kind label)" |
| LegacySearch.SearchViewController.WillSelectRow | StoreSearch/SearchViewController.swift:371-379 | selection is refused exactly when there are no results; otherwise the proposed row is kept |
| LegacySearch.SearchViewController.SearchButtonClicked | StoreSearch/SearchViewController.swift:243-279 | empty text changes nothing. Otherwise the screen is marked searched and the URL built. A dictionary response shows its parsed results sorted by artist (or traps). Anything else shows the alert with an empty table |
| LegacySearch.RowsShowResults | StoreSearch/SearchViewController.swift:314-379 | every result has its own selectable row showing it. After a search that found nothing, the single row is the unselectable "nothing found" cell |

## Left out

- Network I/O is represented by its outcome. This covers `URLSession` data and download tasks, `resume`, `performStoreRequest` and the image downloads of `downloadImage`. A completion is a value `Outcome`, and `cancel()` is recorded as a set of cancelled task numbers. Cancelling the image tasks in `deinit` is not modelled.
- `addingPercentEncoding` is a parameter `escape` of the members that build URLs. `JSONSerialization` is represented by its result, a `Json` value (or `None` when decoding failed). `URL(string:)!` is assumed to succeed.
- `localizedStandardCompare` is locale code. It is a parameter: a collation key that orders strings.
- `SearchResults.SortByArtist`: Swift's `sort(by:)` is not promised to be stable. The model uses a stable insertion sort, and only sortedness and permutation are stated about it.
- `DispatchQueue.main.async` is not modelled as concurrency. A dispatched `completion(success)` is recorded in order, at the moment the handler runs.
- An `Outcome` carries either an error or a response, never both. The handler checks only for error -999, and that check comes before the response is looked at.
- `Json.NumberAt`: an `NSNumber` holding a boolean also bridges to `Double` in Swift. The model reads only JSON numbers as prices.
- UI geometry in floating point is not modelled: view and page-control frames, label sizing and centring with `ceil`, spinner centring, and scroll paging in `scrollViewDidScroll` and `pageChanged`. Landscape positions are whole points, and the screen width is compared with the source's literals.
- `Landscape.LandscapeViewController.HideSpinner`: `viewWithTag(1000)` is modelled as removing one spinner from a count. View-hierarchy search is not modelled.
- Crashes from `as!` are modelled as a `Trapped` outcome, not as process termination.
- Storyboard, segues, the detail pop-up, cell nibs, gradient and animation controllers and the keyboard are outside the model. This covers the other view-controller files, `SearchResultCell.swift` and `UIImageView+DownloadImage.swift`.
