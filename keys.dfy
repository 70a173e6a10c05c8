/** The storage key of a file: configured directory, then the file's own path, then its name. */
module Keys {
  import opened Outcomes
  import opened Text

  /** The directory prefix: the directory with every trailing slash removed and one put back,
      or "" when there is no directory. */
  function FilePrefix(directory: Option<string>): (r: string)
    ensures r == "" <==> !Truthy(directory)
    ensures r != "" ==> r[|r| - 1] == '/' && (|r| == 1 || r[|r| - 2] != '/')
    ensures r != "" ==> StripTrailingSlashes(r) == StripTrailingSlashes(directory.value)
  {
    if Truthy(directory) then
      var stem := StripTrailingSlashes(directory.value);
      assert (stem + "/")[..|stem|] == stem;
      stem + "/"
    else ""
  }

  /** The path segment: the file's path and one slash, with the path taken as it is
      (its own trailing slashes are kept), or "" when the file has no path. */
  function PathSegment(path: Option<string>): (r: string)
    ensures r == "" <==> !Truthy(path)
    ensures r != "" ==> r[..|r| - 1] == path.value && r[|r| - 1] == '/'
  {
    if Truthy(path) then path.value + "/" else ""
  }

  /** `getFileKey`: prefix, path segment, hash, extension, in that order. */
  function FileKey(directory: Option<string>, path: Option<string>, hash: string, ext: string): (r: string)
    ensures |r| == |FilePrefix(directory)| + |PathSegment(path)| + |hash| + |ext|
    ensures StartsWith(r, FilePrefix(directory))
    ensures EndsWith(r, hash + ext)
    ensures r[|FilePrefix(directory)|..|r| - |hash + ext|] == PathSegment(path)
  {
    var prefix, segment, name := FilePrefix(directory), PathSegment(path), hash + ext;
    var k := prefix + segment + hash + ext;
    assert k == prefix + segment + name;
    assert k[..|prefix|] == prefix;
    assert k[|k| - |name|..] == name;
    assert k[|prefix|..|k| - |name|] == segment;
    k
  }

  /** Within one directory and path, distinct names give distinct keys. */
  lemma FileKeyInjective(directory: Option<string>, path: Option<string>,
                         hash1: string, ext1: string, hash2: string, ext2: string)
    requires FileKey(directory, path, hash1, ext1) == FileKey(directory, path, hash2, ext2)
    ensures hash1 + ext1 == hash2 + ext2
  {
    var k := FileKey(directory, path, hash1, ext1);
    assert |hash1 + ext1| == |hash2 + ext2|;
    assert hash1 + ext1 == k[|k| - |hash1 + ext1|..] == hash2 + ext2;
  }

  /** A directory written with any number of trailing slashes gives the same prefix. */
  lemma PrefixIgnoresTrailingSlashes(directory: string, n: nat)
    requires directory != ""
    ensures FilePrefix(Some(directory + Slashes(n))) == FilePrefix(Some(directory))
  {
    StripIgnoresAddedSlashes(directory, n);
  }

  /** "uploads", "uploads/" and "uploads///" all give the prefix "uploads/". */
  lemma UploadsPrefix()
    ensures FilePrefix(Some("uploads")) == "uploads/"
    ensures FilePrefix(Some("uploads/")) == "uploads/"
    ensures FilePrefix(Some("uploads///")) == "uploads/"
  {
    assert "uploads/" == "uploads" + Slashes(1);
    assert "uploads///" == "uploads" + Slashes(3);
    PrefixIgnoresTrailingSlashes("uploads", 1);
    PrefixIgnoresTrailingSlashes("uploads", 3);
    assert StripTrailingSlashes("uploads") == "uploads";
  }

  /** Unlike the directory, a path that ends in a slash keeps it, so the key gets "//". */
  lemma PathKeepsTrailingSlash(hash: string, ext: string)
    ensures FileKey(None, Some("avatars/"), hash, ext) == "avatars//" + hash + ext
  {
  }

  /** The keys of the adapter's test file with and without the "uploads" directory. */
  lemma TestFileKeys()
    ensures FileKey(None, None, "test-hash", ".png") == "test-hash.png"
    ensures FileKey(Some("uploads"), None, "test-hash", ".png") == "uploads/test-hash.png"
  {
    UploadsPrefix();
  }
}
