/** File URLs of the disk tier, written as their path strings, and their last path components. */
module FileUrls {

  const PathSeparator: char := '/'

  /** `URL.lastPathComponent`: the longest separator-free suffix of the path. */
  function LastPathComponent(path: string): (r: string)
    ensures PathSeparator !in r
    ensures |r| <= |path|
  {
    if path == [] || path[|path| - 1] == PathSeparator then []
    else LastPathComponent(path[..|path| - 1]) + [path[|path| - 1]]
  }

  /** The URL of the file named `name` inside `directory`. */
  function FileUrl(directory: string, name: string): (r: string)
    ensures directory < r && r[|directory|] == PathSeparator
  {
    directory + [PathSeparator] + name
  }

  /** The last component of a file URL is the file name it was built from. */
  lemma {:induction false} LastPathComponentOfFileUrl(directory: string, name: string)
    requires PathSeparator !in name
    ensures LastPathComponent(FileUrl(directory, name)) == name
  {
    var path := FileUrl(directory, name);
    if name == [] {
      assert path[|path| - 1] == PathSeparator;
    } else {
      var init, last := name[..|name| - 1], name[|name| - 1];
      assert last in name;
      assert path[|path| - 1] == last;
      assert path[..|path| - 1] == FileUrl(directory, init);
      LastPathComponentOfFileUrl(directory, init);
      assert name == init + [last];
    }
  }

  /** The last path component is a suffix of the path, and the character before it (if any) is a separator. */
  lemma {:induction false} LastPathComponentIsFinalSegment(path: string)
    ensures |LastPathComponent(path)| <= |path|
    ensures path[|path| - |LastPathComponent(path)|..] == LastPathComponent(path)
    ensures |LastPathComponent(path)| < |path| ==> path[|path| - |LastPathComponent(path)| - 1] == PathSeparator
  {
    if path != [] && path[|path| - 1] != PathSeparator {
      var init := path[..|path| - 1];
      LastPathComponentIsFinalSegment(init);
      var r0 := LastPathComponent(init);
      assert LastPathComponent(path) == r0 + [path[|path| - 1]];
      assert path[|path| - |r0| - 1..] == init[|init| - |r0|..] + [path[|path| - 1]];
    }
  }

  /** The file URLs of the cache files for `keys`, in order. */
  function CacheFileUrls(directory: string, fileName: string -> string, keys: seq<string>): (r: seq<string>)
    ensures |r| == |keys|
    ensures forall i :: 0 <= i < |keys| ==> r[i] == FileUrl(directory, fileName(keys[i]))
  {
    if keys == [] then [] else [FileUrl(directory, fileName(keys[0]))] + CacheFileUrls(directory, fileName, keys[1..])
  }

  /** The payload of the "disk cache cleaned" notification: each removed URL's last path component. */
  function CleanedHashes(removed: seq<string>): (r: seq<string>)
    ensures |r| == |removed|
    ensures forall i :: 0 <= i < |removed| ==> r[i] == LastPathComponent(removed[i])
  {
    if removed == [] then []
    else
      var rest := CleanedHashes(removed[1..]);
      [LastPathComponent(removed[0])] + rest
  }

  /** The concatenated URL lists of two sweeps are the URLs of the concatenated key lists. */
  lemma CacheFileUrlsAppend(directory: string, fileName: string -> string, keys1: seq<string>, keys2: seq<string>)
    ensures CacheFileUrls(directory, fileName, keys1) + CacheFileUrls(directory, fileName, keys2)
         == CacheFileUrls(directory, fileName, keys1 + keys2)
  {
  }

  /** When file names hold no separator, the cleaned hashes are exactly the removed files' names. */
  lemma CleanedHashesAreFileNames(directory: string, fileName: string -> string, keys: seq<string>)
    requires forall k :: PathSeparator !in fileName(k)
    ensures |CleanedHashes(CacheFileUrls(directory, fileName, keys))| == |keys|
    ensures forall i :: 0 <= i < |keys| ==> CleanedHashes(CacheFileUrls(directory, fileName, keys))[i] == fileName(keys[i])
  {
    forall i | 0 <= i < |keys|
      ensures CleanedHashes(CacheFileUrls(directory, fileName, keys))[i] == fileName(keys[i])
    {
      LastPathComponentOfFileUrl(directory, fileName(keys[i]));
    }
  }
}
