/**
 * The main window's state: the in-memory library, the poster grid built
 * from it, the current page and the sidebar buttons' active flags, and the
 * "add movie" workflow that ties the dialogs, the metadata provider, the
 * poster cache and the library file together.
 */
module App {
  import opened Wrappers
  import opened Movies
  import opened Paths
  import opened Posters
  import opened LibraryStore
  import opened Grid

  /** Index of the movie grid page and of the settings page in the stacked layout. */
  const MoviesPage: int := 0
  const SettingsPage: int := 1
  const PageCount: nat := 2

  /** Which sidebar buttons are drawn with the active style. */
  datatype Buttons = Buttons(movies: bool, settings: bool, add: bool)

  /** The active flags for a page: Movies on page 0, Settings on page 1, Add Movie never. */
  function ActiveFor(page: int): (b: Buttons)
    ensures b.movies <==> page == MoviesPage
    ensures b.settings <==> page == SettingsPage
    ensures !b.add
  {
    Buttons(page == MoviesPage, page == SettingsPage, false)
  }

  /** At most one sidebar button is shown as active, whatever the page. */
  lemma AtMostOneActive(page: int)
    ensures var b := ActiveFor(page);
            (if b.movies then 1 else 0) + (if b.settings then 1 else 0) + (if b.add then 1 else 0) <= 1
  {
  }

  /** How the user leaves the title prompt, which is pre-filled with a default title. */
  datatype TitleReply =
    | Cancelled            // the prompt was dismissed
    | KeptDefault          // accepted with the pre-filled text untouched
    | Typed(text: string)  // accepted with the text the user left in the field

  /** The title to search for, or None when the prompt was cancelled or left empty. */
  function EnteredTitle(reply: TitleReply, prefilled: string): (t: Option<string>)
    ensures t.None? <==> reply.Cancelled? || (reply.KeptDefault? && prefilled == []) ||
                         (reply.Typed? && reply.text == [])
    ensures t.Some? ==> t.value != [] && t.value == (if reply.Typed? then reply.text else prefilled)
  {
    match reply
    case Cancelled => None
    case KeptDefault => if prefilled == [] then None else Some(prefilled)
    case Typed(text) => if text == [] then None else Some(text)
  }

  /** How one "add movie" attempt ends. */
  datatype AddOutcome =
    | FileCancelled             // the file dialog returned no path
    | TitleRejected             // the title prompt was cancelled or left empty
    | NotFound                  // the provider returned no result ("Movie not found.")
    | PosterFailed              // the poster file could not be written
    | Added(record: MovieRecord)

  /**
   * The search result the workflow settles on: the first provider result
   * for the title entered, or None when the file dialog or the title prompt
   * was cancelled or the provider found nothing.
   */
  function ChosenResult(pickedFile: string, reply: TitleReply, catalog: Catalog): (r: Option<SearchResult>)
    ensures r.Some? <==> (pickedFile != [] && EnteredTitle(reply, DefaultTitle(pickedFile)).Some? &&
                          catalog(EnteredTitle(reply, DefaultTitle(pickedFile)).value) != [])
    ensures r.Some? ==> r.value == catalog(EnteredTitle(reply, DefaultTitle(pickedFile)).value)[0]
  {
    if pickedFile == [] then None
    else match EnteredTitle(reply, DefaultTitle(pickedFile))
      case None => None
      case Some(title) => FetchMovieData(catalog, title)
  }

  /** The relative poster path recorded for a search result, or None when it has no poster. */
  function RecordedPosterPath(data: SearchResult): (p: Option<string>)
    ensures p.None? <==> data.posterId.None? || data.posterId.value == []
    ensures p.Some? ==> p.value == "posters/" + StripLeadingSlashes(data.posterId.value)
    ensures p.Some? ==> CachedName(p.value) == PosterName(data.posterId)
  {
    match PosterName(data.posterId)
    case None => None
    case Some(name) =>
      CachedNameOfRelativePath(name);
      Some(RelativePosterPath(name))
  }

  /** How the add-movie workflow ends for the given dialog answers and provider response. */
  function AddMovieOutcome(pickedFile: string, reply: TitleReply, catalog: Catalog): (o: AddOutcome)
    ensures o == FileCancelled <==> pickedFile == []
    ensures o == TitleRejected <==> pickedFile != [] && EnteredTitle(reply, DefaultTitle(pickedFile)).None?
    ensures o == NotFound <==> pickedFile != [] && EnteredTitle(reply, DefaultTitle(pickedFile)).Some? &&
                               ChosenResult(pickedFile, reply, catalog).None?
    ensures o == PosterFailed <==> ChosenResult(pickedFile, reply, catalog).Some? &&
                                   var name := PosterName(ChosenResult(pickedFile, reply, catalog).value.posterId);
                                   name.Some? && !Writable(name.value)
    ensures o.Added? ==>
              var data := ChosenResult(pickedFile, reply, catalog).value;
              && o.record.title == data.title && o.record.overview == data.overview
              && o.record.year == Year(data.releaseDate)
              && o.record.posterPath == RecordedPosterPath(data)
              && o.record.filePath == pickedFile
  {
    if pickedFile == [] then FileCancelled
    else if EnteredTitle(reply, DefaultTitle(pickedFile)).None? then TitleRejected
    else match ChosenResult(pickedFile, reply, catalog)
      case None => NotFound
      case Some(data) =>
        var name := PosterName(data.posterId);
        if name.Some? && !Writable(name.value) then PosterFailed
        else Added(BuildRecord(data, RecordedPosterPath(data), pickedFile))
  }

  class WatchYoApp {
    var library: seq<MovieRecord>
    var grid: seq<Placement>
    var currentPage: int
    var shownPage: nat        // the page the stacked layout displays
    var buttons: Buttons
    const libraryFile: LibraryFile
    const posterCache: PosterCache

    /**
     * The window's invariant: the grid shows the library, the buttons show
     * the current page, and the library file holds the in-memory library
     * (or is still absent while the library is empty).
     */
    ghost predicate Valid()
      reads this, libraryFile
    {
      && grid == Layout(library)
      && shownPage < PageCount
      && buttons == ActiveFor(currentPage)
      && (libraryFile.contents == Some(library) || (libraryFile.contents.None? && library == []))
    }

    /** Loads the library, renders the grid and starts on the movies page. */
    constructor (file: LibraryFile, cache: PosterCache)
      ensures Valid()
      ensures libraryFile == file && posterCache == cache
      ensures library == (if file.contents.Some? then file.contents.value else [])
      ensures currentPage == MoviesPage && shownPage == 0
    {
      libraryFile := file;
      posterCache := cache;
      var loaded := file.Load();
      library := loaded;
      shownPage := 0;
      new;
      RenderMovieGrid();
      currentPage := MoviesPage;
      UpdateActiveButton();
    }

    /** Clears the grid and places every movie of the library, movie `idx` at `Cell(idx)`. */
    method RenderMovieGrid()
      modifies this`grid
      ensures grid == Layout(library)
    {
      grid := [];
      var idx := 0;
      while idx < |library|
        invariant 0 <= idx <= |library|
        invariant |grid| == idx
        invariant forall k :: 0 <= k < idx ==> grid[k] == Placement(Cell(k), library[k])
      {
        grid := grid + [Placement(Cell(idx), library[idx])];
        idx := idx + 1;
      }
    }

    /** Resets every button to the plain style, then marks the current page's button active. */
    method UpdateActiveButton()
      modifies this`buttons
      ensures buttons == ActiveFor(currentPage)
    {
      buttons := Buttons(false, false, false);
      if currentPage == MoviesPage {
        buttons := buttons.(movies := true);
      } else if currentPage == SettingsPage {
        buttons := buttons.(settings := true);
      }
    }

    /**
     * Shows page `page` (the stacked layout ignores an index it has no page
     * for) and updates the active button.
     */
    method SwitchToPage(page: int)
      requires Valid()
      modifies this`currentPage, this`shownPage, this`buttons
      ensures Valid()
      ensures currentPage == page
      ensures shownPage == if 0 <= page < PageCount then page else old(shownPage)
      ensures buttons.movies <==> page == MoviesPage
      ensures buttons.settings <==> page == SettingsPage
      ensures !buttons.add
    {
      if 0 <= page < PageCount {
        shownPage := page;
      }
      currentPage := page;
      UpdateActiveButton();
    }

    /**
     * The "Add Movie" button: choose a file, confirm a title (pre-filled
     * from the file name), search the provider, cache the poster, then
     * append the new record, save the whole library and re-render the grid.
     * Every early exit leaves the library, the file and the grid as they were.
     */
    method AddMovie(pickedFile: string, reply: TitleReply, catalog: Catalog, images: ImageHost)
      returns (outcome: AddOutcome)
      requires Valid()
      modifies this`library, this`grid, libraryFile, posterCache
      ensures Valid()
      ensures outcome == AddMovieOutcome(pickedFile, reply, catalog)
      ensures !outcome.Added? ==>
                library == old(library) && libraryFile.contents == old(libraryFile.contents) &&
                posterCache.files == old(posterCache.files)
      ensures outcome.Added? ==>
                library == old(library) + [outcome.record] && libraryFile.contents == Some(library)
      ensures outcome.Added? && outcome.record.posterPath.None? ==> posterCache.files == old(posterCache.files)
      ensures outcome.Added? && outcome.record.posterPath.Some? ==>
                var id := ChosenResult(pickedFile, reply, catalog).value.posterId.value;
                var name := CachedName(outcome.record.posterPath.value);
                name.Some? && posterCache.files == old(posterCache.files)[name.value := images(id)]
    {
      if pickedFile == [] {
        return FileCancelled;
      }
      var title := EnteredTitle(reply, DefaultTitle(pickedFile));
      if title.None? {
        return TitleRejected;
      }
      var data := FetchMovieData(catalog, title.value);
      if data.None? {
        return NotFound;
      }
      var poster := DownloadPoster(posterCache, data.value.posterId, images);
      if poster.WriteFailed? {
        return PosterFailed;
      }
      var posterPath := if poster.Saved? then Some(poster.path) else None;
      if poster.Saved? {
        CachedNameOfRelativePath(PosterName(data.value.posterId).value);
      }
      var movie := BuildRecord(data.value, posterPath, pickedFile);
      library := library + [movie];
      libraryFile.Save(library);
      RenderMovieGrid();
      outcome := Added(movie);
    }
  }

  /** Two successful additions leave both records, in call order, after the existing ones. */
  method AddTwo(app: WatchYoApp, first: string, firstReply: TitleReply,
                second: string, secondReply: TitleReply, catalog: Catalog, images: ImageHost)
    returns (o1: AddOutcome, o2: AddOutcome)
    requires app.Valid()
    modifies app, app.libraryFile, app.posterCache
    ensures app.Valid()
    ensures o1.Added? && o2.Added? ==> app.library == old(app.library) + [o1.record, o2.record]
    ensures o1.Added? && !o2.Added? ==> app.library == old(app.library) + [o1.record]
    ensures !o1.Added? && o2.Added? ==> app.library == old(app.library) + [o2.record]
    ensures !o1.Added? && !o2.Added? ==> app.library == old(app.library)
  {
    ghost var before := app.library;
    o1 := app.AddMovie(first, firstReply, catalog, images);
    ghost var middle := app.library;
    if o1.Added? {
      assert middle == before + [o1.record];
    }
    o2 := app.AddMovie(second, secondReply, catalog, images);
    if o2.Added? {
      assert app.library == middle + [o2.record];
    }
  }
}
