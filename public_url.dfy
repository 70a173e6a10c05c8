/** The public URL written onto an uploaded file. */
module PublicUrls {
  import opened Outcomes
  import opened Text

  /** `getUrl(key)`: under the CDN when one is set; otherwise virtual-hosted HTTPS, rebuilt
      from the bucket and the raw configured endpoint (not the normalised one). */
  function PublicUrl(cdnEndpoint: Option<string>, bucket: Option<string>, endpoint: string, key: string): (r: string)
    ensures EndsWith(r, "/" + key)
    ensures Truthy(cdnEndpoint) && EndsWith(cdnEndpoint.value, "/") ==> r == cdnEndpoint.value + key
    ensures Truthy(cdnEndpoint) && !EndsWith(cdnEndpoint.value, "/") ==> r == cdnEndpoint.value + "/" + key
    ensures !Truthy(cdnEndpoint) ==> StartsWith(r, "https://" + Render(bucket) + ".")
  {
    if Truthy(cdnEndpoint) then
      DropTrailingSlash(cdnEndpoint.value) + "/" + key
    else
      var host := StripHttpScheme(endpoint);
      var prefix := "https://" + Render(bucket) + ".";
      var u := prefix + host + "/" + key;
      assert u == prefix + (host + "/" + key);
      assert u[..|prefix|] == prefix;
      u
  }

  /** With a CDN the URL depends on the CDN and the key only. */
  lemma CdnUrlIgnoresStorage(cdnEndpoint: string, bucket1: Option<string>, endpoint1: string,
                             bucket2: Option<string>, endpoint2: string, key: string)
    requires cdnEndpoint != ""
    ensures PublicUrl(Some(cdnEndpoint), bucket1, endpoint1, key)
         == PublicUrl(Some(cdnEndpoint), bucket2, endpoint2, key)
  {
  }

  /** Without a CDN the URL is always HTTPS on "bucket." + the endpoint's host, whether the
      endpoint was written with "http://", "https://" or no scheme at all. */
  lemma UrlWithoutCdn(bucket: string, host: string, key: string)
    requires !StartsWith(host, "http://") && !StartsWith(host, "https://")
    ensures PublicUrl(None, Some(bucket), "https://" + host, key) == "https://" + bucket + "." + host + "/" + key
    ensures PublicUrl(None, Some(bucket), "http://" + host, key) == "https://" + bucket + "." + host + "/" + key
    ensures PublicUrl(None, Some(bucket), host, key) == "https://" + bucket + "." + host + "/" + key
  {
    StripHttpSchemeOf(host);
  }

  /** A raw endpoint that already names the bucket as a subdomain gets it a second time. */
  lemma BucketRepeatedForVirtualHostedEndpoint(bucket: string, host: string, key: string)
    ensures PublicUrl(None, Some(bucket), "https://" + bucket + "." + host, key)
         == "https://" + bucket + "." + bucket + "." + host + "/" + key
  {
    StripHttpSchemeOf(bucket + "." + host);
    assert "https://" + bucket + "." + host == "https://" + (bucket + "." + host);
  }

  /** Without any bucket configured, the template writes "undefined" in its place. */
  lemma UndefinedBucket(host: string, key: string)
    ensures PublicUrl(None, None, "https://" + host, key) == "https://undefined." + host + "/" + key
  {
    StripHttpSchemeOf(host);
  }

  /** Every key under the adapter's test configuration, which has no CDN. */
  lemma TestEndpointUrl(key: string)
    ensures PublicUrl(None, Some("test-space"), "https://nyc3.digitaloceanspaces.com", key)
         == "https://test-space.nyc3.digitaloceanspaces.com/" + key
  {
    var host := "nyc3.digitaloceanspaces.com";
    assert host[0] != 'h';
    TestEndpointSpelt();
    UrlWithoutCdn("test-space", host, key);
    TestBucketSpelt();
    TestHostSpelt();
  }

  /** The URL the adapter's tests expect for the test file without a directory. */
  lemma TestFileUrl()
    ensures PublicUrl(None, Some("test-space"), "https://nyc3.digitaloceanspaces.com", "test-hash.png")
         == "https://test-space.nyc3.digitaloceanspaces.com/test-hash.png"
  {
    TestEndpointUrl("test-hash.png");
    assert "https://test-space.nyc3.digitaloceanspaces.com/" + "test-hash.png"
        == "https://test-space.nyc3.digitaloceanspaces.com/test-hash.png";
  }

  /** The URL the adapter's tests expect for the test file under the "uploads" directory. */
  lemma TestFileUrlInDirectory()
    ensures PublicUrl(None, Some("test-space"), "https://nyc3.digitaloceanspaces.com", "uploads/test-hash.png")
         == "https://test-space.nyc3.digitaloceanspaces.com/" + "uploads/test-hash.png"
  {
    TestEndpointUrl("uploads/test-hash.png");
  }

  /** The URL the adapter's tests expect for the test file behind a CDN. */
  lemma TestFileCdnUrl()
    ensures PublicUrl(Some("https://cdn.example.com"), Some("test-space"), "https://nyc3.digitaloceanspaces.com", "test-hash.png")
         == "https://cdn.example.com/test-hash.png"
  {
    var cdn := "https://cdn.example.com";
    assert cdn[|cdn| - 1] == 'm';
    assert cdn + "/" + "test-hash.png" == "https://cdn.example.com/test-hash.png";
  }

  // The long test strings, put together one concatenation at a time; each equality between
  // literals sits in a lemma of its own, which keeps every proof small.

  lemma TestEndpointSpelt()
    ensures "https://" + "nyc3.digitaloceanspaces.com" == "https://nyc3.digitaloceanspaces.com"
  {
  }

  lemma TestBucketSpelt()
    ensures "https://" + "test-space" + "." == "https://test-space."
  {
  }

  lemma TestHostSpelt()
    ensures "https://test-space." + "nyc3.digitaloceanspaces.com" + "/" == "https://test-space.nyc3.digitaloceanspaces.com/"
  {
  }
}
