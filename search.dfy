/**
 * The search service (`class Search`): the category filter and its entity
 * token, the request URL, the four-case `State`, and `performSearch` with
 * the completion handler of its data task.
 *
 * The network is not modelled. A data task is a number; cancelling it is
 * recorded; what the data task eventually reports to its completion handler is
 * an `Outcome` value passed to `Complete`. The completion closure, which
 * the source dispatches to the main queue, is a recorded event
 * (`completions`). Percent-escaping of the search text is Foundation code
 * and is a parameter `escape`; `localizedStandardCompare` is the collation
 * key `key`.
 */
module SearchService {
  import opened Wrappers
  import opened Json
  import opened SearchResults
  import Parsing

  // ---------------------------------------------------------------------
  // Category

  datatype Category = All | Music | Software | Ebooks

  /** The `Int` raw value, which is the index of the segmented control. */
  function RawValue(c: Category): int
  {
    match c
    case All => 0
    case Music => 1
    case Software => 2
    case Ebooks => 3
  }

  /** `Category(rawValue:)`: the failable initialiser. */
  function CategoryFromRaw(raw: int): Option<Category>
  {
    if raw == 0 then Some(All)
    else if raw == 1 then Some(Music)
    else if raw == 2 then Some(Software)
    else if raw == 3 then Some(Ebooks)
    else None
  }

  /**
   * `Category(rawValue:)` inverts `rawValue`: it succeeds exactly on 0...3
   * and gives back the category whose raw value it was given.
   */
  lemma CategoryRawRoundTrip(c: Category, raw: int)
    ensures CategoryFromRaw(RawValue(c)) == Some(c)
    ensures CategoryFromRaw(raw).Some? <==> 0 <= raw <= 3
    ensures CategoryFromRaw(raw).Some? ==> RawValue(CategoryFromRaw(raw).value) == raw
  {
  }

  /** `entityName`: the query token of each category, with the source's literal "sotfware". */
  function EntityName(c: Category): string
  {
    match c
    case All => ""
    case Music => "musicTrack"
    case Software => "sotfware"
    case Ebooks => "ebook"
  }

  lemma EntityNameTable()
    ensures EntityName(All) == ""
    ensures EntityName(Music) == "musicTrack"
    ensures EntityName(Software) == "sotfware"
    ensures EntityName(Ebooks) == "ebook"
  {
  }

  /** Different categories send different entity tokens. */
  lemma EntityNameInjective(c: Category, c': Category)
    requires c != c'
    ensures EntityName(c) != EntityName(c')
  {
  }

  // ---------------------------------------------------------------------
  // The request URL

  const SearchPrefix: string := "https://itunes.apple.com/search?term="

  /** What follows the search term: the fixed limit and the entity token. */
  function QuerySuffix(c: Category): string
  {
    "&limit=200&entity=" + EntityName(c)
  }

  /**
   * `iTunesURL(searchText:category:)`, given the already percent-escaped
   * text: the prefix, the escaped term, "&limit=200", then "&entity=" and the
   * category's token.
   */
  function ITunesURL(escapedText: string, c: Category): string
  {
    SearchPrefix + escapedText + QuerySuffix(c)
  }

  /** Takes `suffix` off the end of `s`, if `s` ends with it. */
  function DropSuffix(s: string, suffix: string): Option<string>
  {
    if |suffix| <= |s| && s[|s| - |suffix|..] == suffix then Some(s[..|s| - |suffix|]) else None
  }

  /** Reads the escaped term and the category back out of a request URL. */
  function DecodeURL(url: string): Option<(string, Category)>
  {
    if |url| < |SearchPrefix| || url[..|SearchPrefix|] != SearchPrefix then None
    else
      var rest := url[|SearchPrefix|..];
      match DropSuffix(rest, QuerySuffix(All))
      case Some(t) => Some((t, All))
      case None =>
        match DropSuffix(rest, QuerySuffix(Music))
        case Some(t) => Some((t, Music))
        case None =>
          match DropSuffix(rest, QuerySuffix(Software))
          case Some(t) => Some((t, Software))
          case None =>
            match DropSuffix(rest, QuerySuffix(Ebooks))
            case Some(t) => Some((t, Ebooks))
            case None => None
  }

  /** A string ending in `t + suffix` ends in `suffix`, and drops it to `t`. */
  lemma DropOwnSuffix(t: string, suffix: string)
    ensures DropSuffix(t + suffix, suffix) == Some(t)
  {
  }

  /** A string ending in `a` does not end in `b` when `a` and `b` differ `k` places from their ends. */
  lemma EndsDiffer(t: string, a: string, b: string, k: nat)
    requires k < |a| && k < |b|
    requires a[|a| - 1 - k] != b[|b| - 1 - k]
    ensures DropSuffix(t + a, b) == None
  {
  }

  /**
   * The request URL determines both the escaped term and the category: the
   * decoder gives back exactly what the URL was built from.
   */
  lemma DecodeURLRoundTrip(escapedText: string, c: Category)
    ensures DecodeURL(ITunesURL(escapedText, c)) == Some((escapedText, c))
  {
    var url := ITunesURL(escapedText, c);
    assert url[..|SearchPrefix|] == SearchPrefix;
    var rest := url[|SearchPrefix|..];
    assert rest == escapedText + QuerySuffix(c);
    DropOwnSuffix(escapedText, QuerySuffix(c));
    var all, music, software, ebooks := QuerySuffix(All), QuerySuffix(Music), QuerySuffix(Software), QuerySuffix(Ebooks);
    assert all[|all| - 1] == '=' && music[|music| - 1] == 'k' && software[|software| - 1] == 'e';
    assert ebooks[|ebooks| - 1] == 'k' && ebooks[|ebooks| - 2] == 'o' && music[|music| - 2] == 'c';
    match c {
      case All =>
      case Music =>
        EndsDiffer(escapedText, music, all, 0);
      case Software =>
        EndsDiffer(escapedText, software, all, 0);
        EndsDiffer(escapedText, software, music, 0);
      case Ebooks =>
        EndsDiffer(escapedText, ebooks, all, 0);
        EndsDiffer(escapedText, ebooks, music, 1);
        EndsDiffer(escapedText, ebooks, software, 0);
    }
  }

  // ---------------------------------------------------------------------
  // State and the completion handler

  datatype State = NotSearchYet | Loading | NoResults | Results(list: seq<SearchResult>)

  /** What a data task reports to its completion handler. */
  datatype Outcome =
    | Failed(code: int)                             // an `NSError` and its code
    | Received(statusCode: int, body: Option<Json>) // the HTTP status, and the body when it is valid JSON

  /** `NSURLErrorCancelled`: the code a cancelled task reports. */
  const CancelledCode: int := -999

  /** How the completion handler ends. */
  datatype HandlerExit =
    | Cancelled               // returned early on error -999; `completion` is not called
    | Trapped                 // a forced cast in a parser failed; the app stops
    | Called(success: bool)   // `completion(success)` is dispatched

  datatype Completion = Completion(state: State, exit: HandlerExit)

  /**
   * The completion handler as written: state is reset to `notSearchYet`
   * first, then error -999 returns; a 200 response whose body is a JSON
   * dictionary is parsed, sorted and reported as success; anything else
   * leaves `notSearchYet` and reports failure.
   */
  function CompletionOf(outcome: Outcome, key: CollationKey): Completion
  {
    if outcome.Failed? && outcome.code == CancelledCode then Completion(NotSearchYet, Cancelled)
    else if outcome.Received? && outcome.statusCode == 200 && outcome.body.Some? && outcome.body.value.JObj? then
      match Parsing.ResultsOf(outcome.body.value.fields)
      case None => Completion(NotSearchYet, Trapped)
      case Some(rs) =>
        if rs == [] then Completion(NoResults, Called(true))
        else Completion(Results(SortByArtist(key, rs)), Called(true))
    else Completion(NotSearchYet, Called(false))
  }

  /** A usable response: status 200 and a body that is a JSON dictionary. */
  predicate IsDictionaryResponse(outcome: Outcome)
  {
    outcome.Received? && outcome.statusCode == 200 && outcome.body.Some? && outcome.body.value.JObj?
  }

  /**
   * Every completion ends in a terminal state: a cancelled task resets the
   * state to `notSearchYet` and skips the callback; a usable response with
   * no results gives `noResults`, one with results gives `results` holding
   * exactly the parsed results, sorted, and both report success; every
   * other outcome leaves `notSearchYet` and reports failure.
   */
  lemma CompletionTerminal(outcome: Outcome, key: CollationKey)
    ensures CompletionOf(outcome, key).state != Loading
    ensures outcome == Failed(CancelledCode) ==> CompletionOf(outcome, key) == Completion(NotSearchYet, Cancelled)
    ensures CompletionOf(outcome, key).exit == Cancelled <==> outcome == Failed(CancelledCode)
    ensures CompletionOf(outcome, key).exit == Trapped <==>
      IsDictionaryResponse(outcome) && Parsing.ResultsOf(outcome.body.value.fields).None?
    ensures CompletionOf(outcome, key).exit == Called(true) <==>
      IsDictionaryResponse(outcome) && Parsing.ResultsOf(outcome.body.value.fields).Some?
    ensures CompletionOf(outcome, key).exit == Called(false) <==>
      outcome != Failed(CancelledCode) && !IsDictionaryResponse(outcome)
    ensures CompletionOf(outcome, key).exit != Called(true) ==> CompletionOf(outcome, key).state == NotSearchYet
    ensures IsDictionaryResponse(outcome) && Parsing.ResultsOf(outcome.body.value.fields) == Some([]) ==>
      CompletionOf(outcome, key).state == NoResults
    ensures IsDictionaryResponse(outcome) && Parsing.ResultsOf(outcome.body.value.fields).Some? ==>
      var rs := Parsing.ResultsOf(outcome.body.value.fields).value;
      rs != [] ==>
        && CompletionOf(outcome, key).state.Results?
        && multiset(CompletionOf(outcome, key).state.list) == multiset(rs)
        && SortedByArtist(key, CompletionOf(outcome, key).state.list)
  {
    if IsDictionaryResponse(outcome) && Parsing.ResultsOf(outcome.body.value.fields).Some? {
      var rs := Parsing.ResultsOf(outcome.body.value.fields).value;
      SortByArtistPermutes(key, rs);
      SortByArtistSorted(key, rs);
    }
  }

  /** A `results` state never holds an empty list, and its list is sorted by artist. */
  lemma ResultsNonEmptySorted(outcome: Outcome, key: CollationKey)
    ensures CompletionOf(outcome, key).state.Results? ==>
      && CompletionOf(outcome, key).state.list != []
      && SortedByArtist(key, CompletionOf(outcome, key).state.list)
  {
    if IsDictionaryResponse(outcome) && Parsing.ResultsOf(outcome.body.value.fields).Some? {
      var rs := Parsing.ResultsOf(outcome.body.value.fields).value;
      SortByArtistPermutes(key, rs);
      SortByArtistSorted(key, rs);
    }
  }

  // ---------------------------------------------------------------------
  // The service object

  class Search {
    /** `private(set) var state`. */
    var state: State
    /** The latest data task, numbered by creation order. */
    var dataTask: Option<nat>
    /** The URL of every data task created and resumed; task `t` requested `issued[t]`. */
    var issued: seq<string>
    /** The data tasks `cancel()` was called on. */
    var cancelled: set<nat>
    /** The `completion(success)` calls dispatched to the main queue, in order. */
    var completions: seq<bool>

    /**
     * `dataTask` is the latest task, and every task before it has been
     * cancelled while it has not: at most one request is outstanding.
     */
    ghost predicate Valid()
      reads this
    {
      && dataTask == (if issued == [] then None else Some(|issued| - 1))
      && forall t :: t in cancelled <==> 0 <= t < |issued| - 1
    }

    constructor ()
      ensures Valid()
      ensures state == NotSearchYet && dataTask == None
      ensures issued == [] && cancelled == {} && completions == []
    {
      state := NotSearchYet;
      dataTask := None;
      issued := [];
      cancelled := {};
      completions := [];
    }

    /**
     * `performSearch(for:category:completion:)`. Empty text changes nothing.
     * Otherwise the previous task is cancelled, the state becomes `loading`,
     * and a new task is created for the request URL and resumed.
     */
    method PerformSearch(text: string, category: Category, escape: string -> string)
      requires Valid()
      modifies this
      ensures Valid()
      ensures text == "" ==>
        && state == old(state) && dataTask == old(dataTask) && issued == old(issued)
        && cancelled == old(cancelled) && completions == old(completions)
      ensures text != "" ==>
        && state == Loading
        && issued == old(issued) + [ITunesURL(escape(text), category)]
        && dataTask == Some(|old(issued)|)
        && cancelled == old(cancelled) + (if old(dataTask).Some? then {old(dataTask).value} else {})
        && |old(issued)| !in cancelled
        && completions == old(completions)
    {
      if text != "" {
        if dataTask.Some? {
          cancelled := cancelled + {dataTask.value};
        }
        state := Loading;
        CategoryRawRoundTrip(category, 0);
        var url := ITunesURL(escape(text), CategoryFromRaw(RawValue(category)).value);
        dataTask := Some(|issued|);
        issued := issued + [url];
      }
    }

    /**
     * The completion handler of a data task, run with what that task
     * reported. The state is set to `notSearchYet` before anything else.
     */
    method Complete(outcome: Outcome, key: CollationKey) returns (exit: HandlerExit)
      requires Valid()
      modifies this`state, this`completions
      ensures Valid()
      ensures state == CompletionOf(outcome, key).state
      ensures exit == CompletionOf(outcome, key).exit
      ensures completions == old(completions) + (if exit.Called? then [exit.success] else [])
    {
      state := NotSearchYet;
      var success := false;
      if outcome.Failed? && outcome.code == CancelledCode {
        return Cancelled;
      }
      if outcome.Received? && outcome.statusCode == 200 && outcome.body.Some? && outcome.body.value.JObj? {
        var parsed := Parsing.ParseDictionary(outcome.body.value.fields);
        if parsed.None? {
          return Trapped;
        }
        var searchResults := parsed.value;
        if searchResults == [] {
          state := NoResults;
        } else {
          searchResults := SortByArtist(key, searchResults);
          state := Results(searchResults);
        }
        success := true;
      }
      completions := completions + [success];
      exit := Called(success);
    }
  }

  /**
   * A superseded search: B replaces A while A is in flight, then A's handler
   * runs with the cancellation error. Because the handler resets the state
   * before it checks for cancellation, the state reads `notSearchYet` while
   * B is still outstanding, and no callback is made.
   */
  method SupersededSearch(key: CollationKey, escape: string -> string) returns (search: Search)
    ensures search.Valid()
    ensures search.dataTask == Some(1) && 1 !in search.cancelled
    ensures search.state == NotSearchYet && search.completions == []
  {
    search := new Search();
    search.PerformSearch("abba", Music, escape);
    search.PerformSearch("queen", Music, escape);
    assert search.cancelled == {0} && search.dataTask == Some(1) && search.state == Loading;
    var exit := search.Complete(Failed(CancelledCode), key);
    assert exit == Cancelled;
  }
}
