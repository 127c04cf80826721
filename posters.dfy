/**
 * The poster cache: a flat directory of image files named after the
 * provider's poster identifiers, and the relative paths the library records
 * store for them.
 */
module Posters {
  import opened Wrappers
  import opened Paths

  newtype byte = x: int | 0 <= x < 256

  /** The image delivery endpoint at the fixed width tier: poster identifier to image bytes. */
  type ImageHost = string -> seq<byte>

  /** The cache directory, relative to the application directory. */
  const PosterDir: string := "posters"

  /**
   * The cache file name for a poster identifier: the identifier without its
   * leading `/` characters, or None when the identifier is missing or empty.
   */
  function PosterName(posterId: Option<string>): (n: Option<string>)
    ensures n.None? <==> posterId.None? || posterId.value == []
    ensures n.Some? ==> n.value == StripLeadingSlashes(posterId.value)
  {
    match posterId
    case None => None
    case Some(id) => if id == [] then None else Some(StripLeadingSlashes(id))
  }

  /** The path stored in a record for the cache file `name`, relative to the application directory. */
  function RelativePosterPath(name: string): (p: string)
    ensures p == "posters/" + name
  {
    PosterDir + "/" + name
  }

  /** The cache file a stored relative path names, or None when it lies outside the cache. */
  function CachedName(relPath: string): Option<string>
  {
    var prefix := PosterDir + "/";
    if |prefix| <= |relPath| && relPath[..|prefix|] == prefix then Some(relPath[|prefix|..]) else None
  }

  /** The path a record stores leads back to the cache file that was written. */
  lemma CachedNameOfRelativePath(name: string)
    ensures CachedName(RelativePosterPath(name)) == Some(name)
  {
    var prefix := PosterDir + "/";
    assert (prefix + name)[..|prefix|] == prefix;
    assert (prefix + name)[|prefix|..] == name;
  }

  /**
   * The stored path for a non-empty identifier is `posters/` followed by the
   * identifier with all its leading `/` removed.
   */
  lemma PosterPathShape(id: string)
    requires id != []
    ensures PosterName(Some(id)).Some?
    ensures var p := RelativePosterPath(PosterName(Some(id)).value);
            exists k :: 0 <= k <= |id| && (forall j :: 0 <= j < k ==> id[j] == '/') &&
                        (k == |id| || id[k] != '/') && p == "posters/" + id[k..]
  {
    var r := StripLeadingSlashes(id);
    var k := |id| - |r|;
    assert id[k..] == r;
    assert k == |id| || id[k] == r[0];
    assert RelativePosterPath(PosterName(Some(id)).value) == "posters/" + id[k..];
  }

  /**
   * Whether `open(posters/<name>, 'wb')` can succeed: the name must be a
   * file directly inside the cache directory, which is the only directory
   * the application creates, so it must be one non-empty path component.
   */
  predicate Writable(name: string)
    ensures Writable(name) <==> name != [] && BaseName(name) == name
  {
    name != [] && '/' !in name
  }

  /** The on-disk poster cache, file name to image bytes. */
  class PosterCache {
    var files: map<string, seq<byte>>

    constructor (existing: map<string, seq<byte>>)
      ensures files == existing
    {
      files := existing;
    }

    /** Writes (or overwrites) one cache file; fails, changing nothing, when the name is not writable. */
    method Write(name: string, data: seq<byte>) returns (ok: bool)
      modifies this
      ensures ok == Writable(name)
      ensures files == if ok then old(files)[name := data] else old(files)
    {
      ok := Writable(name);
      if ok {
        files := files[name := data];
      }
    }
  }

  /** What `download_poster` leads to. */
  datatype PosterOutcome =
    | NoPoster                // the identifier is missing or empty: no request, no file
    | Saved(path: string)     // the relative path of the file written
    | WriteFailed             // the file could not be opened for writing

  /**
   * Fetches the poster image for `posterId`, writes it into the cache under
   * the identifier stripped of leading `/`, and reports the relative path.
   */
  method DownloadPoster(cache: PosterCache, posterId: Option<string>, images: ImageHost)
    returns (r: PosterOutcome)
    modifies cache
    ensures PosterName(posterId).None? ==> r == NoPoster && cache.files == old(cache.files)
    ensures PosterName(posterId).Some? && Writable(PosterName(posterId).value) ==>
              r == Saved(RelativePosterPath(PosterName(posterId).value)) &&
              cache.files == old(cache.files)[PosterName(posterId).value := images(posterId.value)]
    ensures PosterName(posterId).Some? && !Writable(PosterName(posterId).value) ==>
              r == WriteFailed && cache.files == old(cache.files)
  {
    if posterId.None? || posterId.value == [] {
      return NoPoster;
    }
    var data := images(posterId.value);
    var name := StripLeadingSlashes(posterId.value);
    var ok := cache.Write(name, data);
    if !ok {
      return WriteFailed;
    }
    r := Saved(RelativePosterPath(name));
  }
}
