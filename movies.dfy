/**
 * Movie metadata: the search results the metadata provider returns, the
 * record the library stores, and the two pure steps between them — picking
 * the best match and building the record.
 */
module Movies {
  import opened Wrappers

  /** One object of the provider's `results` array, with the fields the application reads. */
  datatype SearchResult = SearchResult(
    title: string,
    overview: string,
    releaseDate: Option<string>,   // None: the provider sent null
    posterId: Option<string>)      // None: the provider sent null

  /** The provider's answer to a free-text title query (the network call itself is not modelled). */
  type Catalog = string -> seq<SearchResult>

  /** One entry of the persisted library. */
  datatype MovieRecord = MovieRecord(
    title: string,
    overview: string,
    year: string,
    posterPath: Option<string>,    // relative to the application directory; None when there is no poster
    filePath: string)

  /** The sentinel stored as the year when the provider has no release date. */
  const UnknownYear: string := "N/A"

  /**
   * The first search result for `title`, trusting the provider's ranking,
   * or None when the provider found nothing.
   */
  function FetchMovieData(catalog: Catalog, title: string): (r: Option<SearchResult>)
    ensures r.None? <==> catalog(title) == []
    ensures r.Some? ==> r.value == catalog(title)[0]
  {
    var results := catalog(title);
    if |results| > 0 then Some(results[0]) else None
  }

  /** Python's `release_date[:4]` when the date is non-empty, the sentinel otherwise. */
  function Year(releaseDate: Option<string>): (y: string)
    ensures releaseDate.None? || releaseDate.value == [] ==> y == UnknownYear
    ensures releaseDate.Some? && releaseDate.value != [] ==>
              |y| == (if |releaseDate.value| < 4 then |releaseDate.value| else 4) &&
              y == releaseDate.value[..|y|]
  {
    match releaseDate
    case None => UnknownYear
    case Some(d) =>
      if d == [] then UnknownYear
      else if |d| < 4 then d
      else d[..4]
  }

  /** A full release date yields its four-digit year. */
  lemma YearOfFullDate()
    ensures Year(Some("2010-07-16")) == "2010"
  {
  }

  /**
   * The record stored for a chosen search result: its title and overview
   * copied over, the year derived from its release date, the locally cached
   * poster path, and the video file the user chose.
   */
  function BuildRecord(data: SearchResult, posterPath: Option<string>, filePath: string): (m: MovieRecord)
    ensures m.title == data.title && m.overview == data.overview
    ensures m.year == Year(data.releaseDate)
    ensures m.posterPath == posterPath && m.filePath == filePath
  {
    MovieRecord(data.title, data.overview, Year(data.releaseDate), posterPath, filePath)
  }
}
