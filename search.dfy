/** The pure front end of `yt_search`: how a user's query is turned into the
    string handed to the extractor, and how the extractor's answer is turned
    into a `Song`. The extraction itself is a parameter of the model. */
module Search {
  import opened Wrappers
  import opened Text

  /** A resolved track: the stream locator FFmpeg opens and the title shown to users. */
  datatype Song = Song(source: string, title: string)

  /** The keys of an extraction result that the bot reads: `url`, `title` and
      `entries`. `None` means the key is absent. */
  datatype Info = Info(url: Option<string>, title: Option<string>, entries: Option<seq<Info>>)

  /** The two lookups in `yt_search` that are not guarded: `info['entries'][0]`
      on an empty list raises IndexError, `info['url']` on a result without it
      raises KeyError. */
  datatype LookupError = NoFirstEntry | NoUrl

  /** What a call of `yt_search` ends in: a song, `None`, or an exception that
      escapes to the command. */
  datatype SearchOutcome = Found(song: Song) | NoResult | Raised(error: LookupError)

  const URL_PREFIX := "http"
  const SEARCH_PREFIX := "ytsearch1:"
  const UNKNOWN_TITLE := "Unknown Title"

  /** A query that does not look like a URL becomes a one-result search;
      a query starting with "http" is passed through. */
  function NormalizeQuery(query: string): (r: string)
    ensures StartsWith(query, URL_PREFIX) ==> r == query
    ensures !StartsWith(query, URL_PREFIX) ==> StartsWith(r, SEARCH_PREFIX) && r[|SEARCH_PREFIX|..] == query
    ensures StartsWith(r, URL_PREFIX) || StartsWith(r, SEARCH_PREFIX)
  {
    if StartsWith(query, URL_PREFIX) then query else SEARCH_PREFIX + query
  }

  /** No two queries reach the extractor as the same string: a search string
      never starts with "http", and the prefix is added to nothing else. */
  lemma NormalizeInjective(a: string, b: string)
    requires NormalizeQuery(a) == NormalizeQuery(b)
    ensures a == b
  {
    FirstCharTellsKind(a);
    FirstCharTellsKind(b);
  }

  /** The first character of a normalized query says which way it went. */
  lemma FirstCharTellsKind(query: string)
    ensures |NormalizeQuery(query)| > 0
    ensures NormalizeQuery(query)[0] == (if StartsWith(query, URL_PREFIX) then 'h' else 'y')
  {
  }

  /** A result that is a list of candidates yields its first one; any other
      result stands for itself. `None` is the IndexError of an empty list. */
  function SelectEntry(info: Info): (r: Option<Info>)
    ensures info.entries.None? ==> r == Some(info)
    ensures info.entries.Some? ==> (r.None? <==> info.entries.value == [])
    ensures info.entries.Some? && r.Some? ==> r.value == info.entries.value[0]
  {
    match info.entries
    case None => Some(info)
    case Some(es) => if es == [] then None else Some(es[0])
  }

  /** `yt_search(query)`, where `extract` stands for `extract_info` and maps a
      failed extraction (an exception, or nothing found) to `None`. */
  function YtSearch(query: string, extract: string -> Option<Info>): (r: SearchOutcome)
    ensures r.NoResult? <==> extract(NormalizeQuery(query)).None?
    ensures r == Raised(NoFirstEntry) <==>
      extract(NormalizeQuery(query)).Some? && SelectEntry(extract(NormalizeQuery(query)).value).None?
    ensures r == Raised(NoUrl) <==>
      extract(NormalizeQuery(query)).Some? && SelectEntry(extract(NormalizeQuery(query)).value).Some? &&
      SelectEntry(extract(NormalizeQuery(query)).value).value.url.None?
    ensures r.Found? ==>
      var e := SelectEntry(extract(NormalizeQuery(query)).value).value;
      e.url == Some(r.song.source) &&
      (e.title.Some? ==> r.song.title == e.title.value) &&
      (e.title.None? ==> r.song.title == UNKNOWN_TITLE)
  {
    match extract(NormalizeQuery(query))
    case None => NoResult
    case Some(info) =>
      match SelectEntry(info)
      case None => Raised(NoFirstEntry)
      case Some(e) =>
        match e.url
        case None => Raised(NoUrl)
        case Some(u) => Found(Song(u, e.title.GetOr(UNKNOWN_TITLE)))
  }
}
