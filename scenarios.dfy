/** The adapter's own test cases, stated on the model: the URLs its tests expect for the test
    file, and the round of operations they exercise. */
module Scenarios {
  import opened Outcomes
  import opened Keys
  import opened PublicUrls
  import opened Store
  import opened Provider

  /** With the test configuration (bucket "test-space" on the nyc3 endpoint, no directory, no
      CDN), the test file "test-hash" ".png" gets its URL on the bucket's subdomain. */
  lemma TestUploadUrl()
    ensures PublicUrl(None, Some("test-space"), "https://nyc3.digitaloceanspaces.com", FileKey(None, None, "test-hash", ".png"))
         == "https://test-space.nyc3.digitaloceanspaces.com/test-hash.png"
  {
    TestFileKeys();
    TestFileUrl();
  }

  /** With the directory "uploads", the key and so the URL gain "uploads/". */
  lemma TestUploadUrlInDirectory()
    ensures PublicUrl(None, Some("test-space"), "https://nyc3.digitaloceanspaces.com", FileKey(Some("uploads"), None, "test-hash", ".png"))
         == "https://test-space.nyc3.digitaloceanspaces.com/" + "uploads/test-hash.png"
  {
    TestFileKeys();
    TestFileUrlInDirectory();
  }

  /** With a CDN endpoint, the URL is on the CDN. */
  lemma TestUploadUrlBehindCdn()
    ensures PublicUrl(Some("https://cdn.example.com"), Some("test-space"), "https://nyc3.digitaloceanspaces.com",
                      FileKey(None, None, "test-hash", ".png"))
         == "https://cdn.example.com/test-hash.png"
  {
    TestFileKeys();
    TestFileCdnUrl();
  }

  /** Whatever the configuration: a file with a buffer that is uploaded without a fault is then
      found by check, and its URL is the one for its key. */
  method UploadThenCheck(p: Provider, file: StrapiFile) returns (found: bool)
    requires file.buffer.Some?
    modifies p.client, file
    ensures found && file.url == p.UrlFor(p.Key(file))
  {
    var r := p.Upload(file, None);
    found := p.Check(file, None);
  }
}
