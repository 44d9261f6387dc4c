/** The song record the bot keeps in its queues, and the two pure steps around the
    external extractor: normalising the user's query before the lookup, and
    defaulting the metadata the lookup returns. The lookup itself (a network call
    into the video platform's extraction library) is a parameter. */
module Songs {
  import opened Wrappers
  import opened Text

  /** One resolved song: the stream URL, display title, duration in whole seconds
      (0 when unknown), optional thumbnail and the page it came from. */
  datatype Song = Song(url: string, title: string, duration: nat, thumbnail: Option<string>, webpageUrl: string)

  /** What the extractor hands back, as a record of optional keys. A search answers
      with `entries`, a list of results; a direct URL answers with the song itself. */
  datatype Info = Info(
    url: Option<string>,
    title: Option<string>,
    duration: Option<nat>,
    thumbnail: Option<string>,
    webpageUrl: Option<string>,
    entries: Option<seq<Info>>)

  datatype ExtractError =
    | ExtractorRaised(message: string)  // the extraction library itself failed
    | NoResults                         // a search with an empty `entries` list
    | MissingUrl                        // the chosen result has no `url` key

  const HttpPrefix: string := "http://"
  const HttpsPrefix: string := "https://"
  const SearchPrefix: string := "ytsearch1:"

  predicate IsUrl(query: string) {
    StartsWith(query, HttpPrefix) || StartsWith(query, HttpsPrefix)
  }

  /** A query that is not an http(s) URL becomes a top-1 search. */
  function NormalizeQuery(query: string): (q: string)
    ensures IsUrl(query) ==> q == query
    ensures !IsUrl(query) ==> StartsWith(q, SearchPrefix) && q[|SearchPrefix|..] == query
    ensures |q| > 0 && q[0] == (if IsUrl(query) then 'h' else 'y')
  {
    if IsUrl(query) then query else SearchPrefix + query
  }

  /** Different queries are never sent to the extractor as the same lookup. */
  lemma NormalizeQueryInjective(a: string, b: string)
    requires NormalizeQuery(a) == NormalizeQuery(b)
    ensures a == b
  {
    // a URL is sent as it is and starts with 'h'; a search starts with 'y'
    if !IsUrl(a) && !IsUrl(b) {
      assert a == NormalizeQuery(a)[|SearchPrefix|..] == b;
    }
  }

  /** The single result a lookup stands for: the first entry of a search. */
  function ChosenResult(info: Info): (r: Result<Info, ExtractError>)
    ensures info.entries.None? ==> r == Success(info)
    ensures info.entries.Some? && info.entries.value != [] ==> r == Success(info.entries.value[0])
    ensures info.entries.Some? && info.entries.value == [] ==> r == Failure(NoResults)
  {
    match info.entries
    case None => Success(info)
    case Some(results) => if results == [] then Failure(NoResults) else Success(results[0])
  }

  /** The song dictionary built from a result: `url` is mandatory, every other key
      has a default, and a missing page URL falls back to the normalised query. */
  function SongOf(info: Info, query: string): (r: Result<Song, ExtractError>)
    ensures r.Success? <==> info.url.Some?
    ensures r.Success? ==> r.value.url == info.url.value
    ensures r.Success? ==> r.value.title == (if info.title.Some? then info.title.value else "Unknown")
    ensures r.Success? ==> r.value.duration == (if info.duration.Some? then info.duration.value else 0)
    ensures r.Success? ==> r.value.thumbnail == info.thumbnail
    ensures r.Success? ==> r.value.webpageUrl == (if info.webpageUrl.Some? then info.webpageUrl.value else query)
  {
    match info.url
    case None => Failure(MissingUrl)
    case Some(u) =>
      Success(Song(
        u,
        match info.title case Some(t) => t case None => "Unknown",
        match info.duration case Some(d) => d case None => 0,
        info.thumbnail,
        match info.webpageUrl case Some(w) => w case None => query))
  }

  /** Resolving a query: normalise it, ask the extractor, pick the result, default
      its metadata. Every failure on the way surfaces as an error, never a song. */
  function Resolve(query: string, extract: string -> Result<Info, string>): (r: Result<Song, ExtractError>)
    ensures extract(NormalizeQuery(query)).Failure? ==>
      r == Failure(ExtractorRaised(extract(NormalizeQuery(query)).error))
    ensures extract(NormalizeQuery(query)).Success? ==>
      var chosen := ChosenResult(extract(NormalizeQuery(query)).value);
      && (chosen.Failure? ==> r == Failure(chosen.error))
      && (chosen.Success? ==> r == SongOf(chosen.value, NormalizeQuery(query)))
  {
    var q := NormalizeQuery(query);
    match extract(q)
    case Failure(message) => Failure(ExtractorRaised(message))
    case Success(info) =>
      match ChosenResult(info)
      case Failure(e) => Failure(e)
      case Success(result) => SongOf(result, q)
  }

  const ErrorPrefix: string := "Failed to extract audio: "

  /** The user-facing text of an extraction failure: the prefix, then the text of
      the exception that caused it. */
  function ErrorText(e: ExtractError): (text: string)
    ensures StartsWith(text, ErrorPrefix)
    ensures e.ExtractorRaised? ==> text[|ErrorPrefix|..] == e.message
    ensures e.NoResults? ==> text[|ErrorPrefix|..] == "No results found"
    ensures e.MissingUrl? ==> text[|ErrorPrefix|..] == "'url'"
  {
    ErrorPrefix +
    match e
    case ExtractorRaised(message) => message
    case NoResults => "No results found"
    case MissingUrl => "'url'"
  }
}
