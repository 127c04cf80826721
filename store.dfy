/**
 * The library file: the persisted JSON array of movie records, kept here as
 * its decoded value.
 */
module LibraryStore {
  import opened Wrappers
  import opened Movies

  class LibraryFile {
    /** None: the file does not exist. */
    var contents: Option<seq<MovieRecord>>

    constructor (initial: Option<seq<MovieRecord>>)
      ensures contents == initial
    {
      contents := initial;
    }

    /** `load_library`: the stored records, or the empty library when the file is absent. */
    method Load() returns (library: seq<MovieRecord>)
      ensures contents.None? ==> library == []
      ensures contents.Some? ==> library == contents.value
    {
      if contents.Some? {
        library := contents.value;
      } else {
        library := [];
      }
    }

    /** `save_library`: overwrites the file with the whole library. */
    method Save(library: seq<MovieRecord>)
      modifies this
      ensures contents == Some(library)
    {
      contents := Some(library);
    }
  }

  /**
   * Loading and saving straight back leaves a present file's contents as
   * they were, and turns an absent file into an empty library.
   */
  method LoadThenSave(file: LibraryFile) returns (library: seq<MovieRecord>)
    modifies file
    ensures old(file.contents).Some? ==> file.contents == old(file.contents)
    ensures old(file.contents).None? ==> file.contents == Some([])
    ensures file.contents == Some(library)
  {
    library := file.Load();
    file.Save(library);
  }
}
