# WatchYo library core, modelled in Dafny

WatchYo is a small desktop movie library. The user picks a local video file,
confirms a title (pre-filled from the file name), and the application looks the
title up with a movie-metadata provider, takes the first result, caches its
poster image under `posters/`, appends a movie record to the in-memory library,
rewrites the library file, and redraws a poster grid five columns wide. A
sidebar switches between the movie grid and a settings page and highlights the
button of the page shown.

The model keeps that logic and replaces the window, the dialogs, the network and
the disk with values:

- `Movies`: the provider's search result, the stored `MovieRecord`, first-result
  selection (`FetchMovieData`), the year rule (`Year`, with the sentinel `N/A`),
  and record construction (`BuildRecord`).
- `Paths`: `lstrip('/')`, `rfind`, `os.path.basename` and `rsplit('.', 1)[0]`
  on strings, and the default title derived from a file path.
- `Posters`: the cache file name and stored relative path for a poster
  identifier, the poster cache as a class over a map from file name to bytes,
  and `DownloadPoster`.
- `LibraryStore`: the library file as a class holding `None` (no file) or the
  decoded list of records, with `Load` and `Save`.
- `Grid`: the cell of each movie and the whole grid layout, with the row-major
  ordering lemmas.
- `App`: the main window as the class `WatchYoApp` (library, grid, current
  page, displayed page, button flags, the library file and the poster cache),
  the title prompt's reply, the add-movie workflow as a specification function
  (`AddMovieOutcome`) and as the imperative method (`AddMovie`), page switching,
  and grid rendering as a loop.

The provider's search endpoint is a parameter `catalog: string -> seq<SearchResult>`
and its image endpoint a parameter `images: string -> seq<byte>`. The file dialog
is the chosen path (empty when cancelled, as the dialog returns); the title prompt
is a `TitleReply` (cancelled, accepted with the pre-filled text, or accepted with
typed text).

Details taken from the code: the year sentinel stored is `N/A`; a
library file that is not valid JSON makes `json.load` raise at start-up (not
modelled, see below); and every save rewrites the file in place.

## Model

| member | source | states |
|---|---|---|
| `Movies.FetchMovieData` | WatchYo.py:22-27 | None exactly when the provider returns no results; otherwise the first result |
| `Movies.Year` | WatchYo.py:227 | `N/A` for a missing or empty release date; otherwise the first four characters (all of them when shorter) |
| `Movies.YearOfFullDate` | WatchYo.py:227 | the release date `2010-07-16` yields the year `2010` |
| `Movies.BuildRecord` | WatchYo.py:224-230 | title and overview copied from the result, year by the year rule, the given poster path and video path stored |
| `Paths.StripLeadingSlashes` | WatchYo.py:34 | the result is a suffix of the input, everything removed is `/`, and the result does not start with `/` |
| `Paths.LastIndexOf` | WatchYo.py:213-214 | None exactly when the character is absent; otherwise a position holding it with no occurrence after it |
| `Paths.BaseName` | WatchYo.py:213 | a suffix of the path containing no `/`, preceded by a `/` whenever it is not the whole path |
| `Paths.StripExtension` | WatchYo.py:214 | the whole name when it has no `.`; otherwise the prefix ending just before the last `.` |
| `Paths.DefaultTitle` | WatchYo.py:213-214 | the prompt's default is the file's basename cut before its last `.`, the whole basename when there is none, never containing `/` |
| `Paths.DefaultTitleExample` | WatchYo.py:213-214 | `v/Up.2.mkv` gives the default title `Up.2` |
| `Posters.PosterName` | WatchYo.py:29-34 | no cache file exactly when the identifier is missing or empty; otherwise the identifier stripped of leading `/` |
| `Posters.PosterPathShape` | WatchYo.py:34-38 | for a non-empty identifier the path derived is `posters/` followed by the identifier with all its leading `/` removed (it is stored only when that file can be written) |
| `Posters.RelativePosterPath` | WatchYo.py:34-38 | the relative path of cache file `name` is `posters/` followed by the name |
| `Posters.Writable` | WatchYo.py:35 | opening the cache file succeeds exactly for a non-empty name that is its own basename, i.e. a file directly inside the poster directory |
| `Posters.CachedNameOfRelativePath` | WatchYo.py:38 | the relative path stored in a record leads back to the cache file written for it |
| `Posters.PosterCache.Write` | WatchYo.py:35-36 | writing succeeds exactly for a non-empty name without `/`; on success that one file holds the bytes and every other file is untouched, on failure nothing changes |
| `Posters.DownloadPoster` | WatchYo.py:29-38 | no file and no path for a missing or empty identifier; otherwise the image fetched for the identifier is written under its stripped name and `posters/<name>` returned, or nothing changes when the file cannot be written |
| `LibraryStore.LibraryFile.Load` | WatchYo.py:40-44 | the empty library when the file is absent, otherwise the stored records |
| `LibraryStore.LibraryFile.Save` | WatchYo.py:46-48 | the file afterwards holds the whole list given |
| `LibraryStore.LoadThenSave` | WatchYo.py:40-48 | loading and saving straight back leaves a present file's contents unchanged and turns an absent file into an empty library |
| `Grid.Cell` | WatchYo.py:199 | the column is below 5 and row times 5 plus column is the index |
| `Grid.CellInjective` | WatchYo.py:199 | distinct indices get distinct cells |
| `Grid.RowMajorOrder` | WatchYo.py:173-199 | an index is smaller than another exactly when its cell comes first in row-major order |
| `Grid.NextCell` | WatchYo.py:173-199 | the next index takes the next column, or column 0 of the next row after the fifth column |
| `Grid.Layout` | WatchYo.py:173-199 | one placement per movie, in library order, movie `k` in the cell of `k` |
| `Grid.LayoutOrdered` | WatchYo.py:173-199 | within a grid, earlier movies sit in strictly earlier and different cells |
| `Grid.LayoutAppend` | WatchYo.py:232-234 | after appending a movie the grid keeps every earlier placement and adds the new movie in the next cell |
| `App.ActiveFor` | WatchYo.py:242-320 | Movies is active exactly on page 0, Settings exactly on page 1, Add Movie never |
| `App.AtMostOneActive` | WatchYo.py:242-320 | for every page at most one sidebar button is active |
| `App.EnteredTitle` | WatchYo.py:214-216 | no title exactly when the prompt is cancelled or its text is empty; otherwise the text accepted (the pre-filled default when untouched) |
| `App.RecordedPosterPath` | WatchYo.py:223-228 | no poster path exactly when the identifier is missing or empty; otherwise `posters/` plus the identifier stripped of leading `/`, which leads back to the cache file written |
| `App.ChosenResult` | WatchYo.py:209-221 | a result exactly when a file was chosen, a non-empty title accepted and the provider found something; it is the provider's first result for that title |
| `App.AddMovieOutcome` | WatchYo.py:208-230 | each early exit happens exactly under its condition (no file, no title, no match, poster not writable); a record built on success carries the first result's title and overview, the year rule's year, the cached poster path and the chosen file |
| `App.WatchYoApp.constructor` | WatchYo.py:78-103 | the library is what loading gives, the grid shows it, page 0 is current and shown, and its button is active |
| `App.WatchYoApp.RenderMovieGrid` | WatchYo.py:169-199 | afterwards the grid is exactly the layout of the library |
| `App.WatchYoApp.UpdateActiveButton` | WatchYo.py:242-320 | the button flags become those of the current page |
| `App.WatchYoApp.SwitchToPage` | WatchYo.py:236-240 | the current page becomes the given index, the stacked layout shows it when it is a page, and the buttons follow it |
| `App.WatchYoApp.AddMovie` | WatchYo.py:208-234 | the outcome is the one the workflow specifies; every early exit leaves library, library file and poster cache unchanged; a success appends exactly the new record, writes the whole list to the file, caches the poster under the name its stored path leads to, and re-renders the grid |
| `App.AddTwo` | WatchYo.py:232-233 | after two additions the library holds the earlier records followed by the record of each call that succeeded, in call order |

## Left out

- Network calls to the metadata provider and its image endpoint, and the URL strings they build: the search response and the image bytes are parameters. Transport and authentication failures are not modelled.
- JSON encoding and decoding of the library file: the file is modelled by its decoded content. A file that is not valid JSON, or JSON of another shape, is not modelled; the application would fail while loading.
- Search results are modelled as records holding every field the application reads. A result missing one of those keys, or an empty result object, is not modelled.
- `os.makedirs` of the poster directory at start-up: the poster directory is assumed to exist.
- `os.path.relpath` normalisation and platform separators: paths follow POSIX rules, and a poster identifier is assumed to contain no `.` or `..` segment and no doubled `/`.
- LibraryStore.LibraryFile.Save: saving never fails in the model. I/O failures of the library file (a read-only directory, a full disk) are not modelled; in the code `open(..., 'w')` truncates the file before `json.dump` writes, so such a failure would leave the new record in memory and an empty or partial file on disk, which the window's invariant does not allow.
- Posters.PosterCache.Write: a name containing `/` is taken to fail always, because the application only creates the flat poster directory; a subdirectory created by someone else is not modelled.
- App.WatchYoApp.AddMovie: when the poster file cannot be written the application raises an unhandled exception inside a Qt slot; the model reports `PosterFailed` with nothing changed and does not model the application stopping. I/O failures of the poster file other than those its name determines (permissions, a full disk) are not modelled.
- App.WatchYoApp.SwitchToPage: the stacked layout's behaviour for an index without a page (nothing shown changes) is Qt's, not the application's.
- All widgets, layouts, style sheets, pixmap scaling, the movie detail dialog and the message boxes: only the resulting state (grid placements, active flags, the outcome reported) is kept.
- Mouse handling on posters and playback through `os.startfile`: a platform call.
- Loading the API key from the environment: configuration.
