/** The adapter's configuration, the bucket it resolves, and the endpoint it hands to the
    storage client. */
module Endpoint {
  import opened Outcomes
  import opened Text
  import opened Urls

  /** The init options the core reads; `space` is the legacy name of `bucket`. */
  datatype Config = Config(
    key: string,
    secret: string,
    endpoint: string,
    region: string,
    bucket: Option<string>,
    space: Option<string>,
    directory: Option<string>,
    cdnEndpoint: Option<string>)

  /** `config.bucket || config.space`. */
  function ResolveBucket(bucket: Option<string>, space: Option<string>): (r: Option<string>)
    ensures Truthy(bucket) ==> r == bucket
    ensures !Truthy(bucket) ==> r == space
    ensures Truthy(r) <==> Truthy(bucket) || Truthy(space)
  {
    if Truthy(bucket) then bucket else space
  }

  /** The rule the normaliser follows: keep the raw endpoint when there is no bucket, when the
      bucket already occurs anywhere in the endpoint, when the endpoint does not parse, or when
      its host already starts with "bucket."; otherwise put "bucket." in front of the host. */
  ghost predicate NormalizesTo(endpoint: string, bucket: Option<string>, finalEndpoint: string) {
    if !Truthy(bucket) || Contains(endpoint, bucket.value) || ParseUrl(endpoint).None? then
      finalEndpoint == endpoint
    else
      var u := ParseUrl(endpoint).value;
      var b := bucket.value;
      finalEndpoint == if StartsWith(u.host, b + ".") then endpoint else Format(WithHostPrefix(u, b + "."))
  }

  /** Computes the endpoint the storage client is built with. */
  method NormalizeEndpoint(endpoint: string, bucket: Option<string>) returns (finalEndpoint: string)
    ensures NormalizesTo(endpoint, bucket, finalEndpoint)
  {
    finalEndpoint := endpoint;
    if Truthy(bucket) && !Contains(endpoint, bucket.value) {
      var parsed := ParseUrl(endpoint);
      match parsed
      case None =>
        // `new URL` threw: the raw endpoint is kept
      case Some(url) =>
        var b := bucket.value;
        if !StartsWith(url.host, b + ".") {
          finalEndpoint := url.protocol + "//" + b + "." + url.host + url.pathname;
          assert finalEndpoint == Format(WithHostPrefix(url, b + "."));
        }
    }
  }

  /** The endpoint is unchanged when there is no bucket, when the bucket occurs in it, or when it
      does not parse. */
  lemma NormalizedKeepsEndpoint(endpoint: string, bucket: Option<string>, finalEndpoint: string)
    requires NormalizesTo(endpoint, bucket, finalEndpoint)
    requires !Truthy(bucket) || Contains(endpoint, bucket.value) || ParseUrl(endpoint).None?
    ensures finalEndpoint == endpoint
  {
  }

  /** Otherwise, for a bucket name free of '/', '?' and '#', the endpoint parses to the raw
      endpoint's protocol and pathname around a host that starts with "bucket.". */
  lemma NormalizedHostHasBucket(endpoint: string, bucket: string, finalEndpoint: string)
    requires NormalizesTo(endpoint, Some(bucket), finalEndpoint)
    requires bucket != "" && !Contains(endpoint, bucket) && ParseUrl(endpoint).Some?
    requires Free(bucket, HostStops)
    ensures ParseUrl(finalEndpoint) == Some(WithHostPrefix(ParseUrl(endpoint).value, bucket + "."))
    ensures StartsWith(ParseUrl(finalEndpoint).value.host, bucket + ".")
  {
    var u := ParseUrl(endpoint).value;
    HostGuardHolds(endpoint, bucket);
    WithHostPrefixWellFormed(u, bucket + ".");
    ParseFormat(WithHostPrefix(u, bucket + "."));
  }

  /** Normalisation changes an endpoint only when the bucket is missing from it, and then the
      new endpoint names the bucket. */
  lemma NormalizedAddsBucket(endpoint: string, bucket: Option<string>, finalEndpoint: string)
    requires NormalizesTo(endpoint, bucket, finalEndpoint) && finalEndpoint != endpoint
    ensures Truthy(bucket) && !Contains(endpoint, bucket.value)
    ensures Contains(finalEndpoint, bucket.value)
  {
    var u := ParseUrl(endpoint).value;
    var b := bucket.value;
    var front := u.protocol + "//";
    var back := b + "." + u.host + u.pathname;
    assert finalEndpoint == front + back;
    assert finalEndpoint[|front|..] == back;
    assert back[..|b|] == b;
    ContainsAt(finalEndpoint, b, |front|);
  }

  /** A bare regional endpoint such as "https://nyc3.digitaloceanspaces.com" becomes the
      bucket's subdomain, and gains the parser's pathname "/". */
  lemma NormalizedBareEndpoint(scheme: string, host: string, bucket: string, finalEndpoint: string)
    requires scheme != "" && Free(scheme, SchemeStops) && host != "" && Free(host, HostStops)
    requires bucket != "" && !Contains(scheme + "://" + host, bucket)
    requires NormalizesTo(scheme + "://" + host, Some(bucket), finalEndpoint)
    ensures finalEndpoint == scheme + "://" + bucket + "." + host + "/"
  {
    var u := Url(scheme + ":", host, "/");
    ParseWithoutPath(scheme, host);
    HostGuardHolds(scheme + "://" + host, bucket);
    assert Format(WithHostPrefix(u, bucket + ".")) == scheme + "://" + bucket + "." + host + "/";
  }

  /** With a parser that returns the host as written, the host test can never find the bucket
      prefix once the substring test has failed: the host is itself part of the endpoint. */
  lemma HostGuardHolds(endpoint: string, bucket: string)
    requires !Contains(endpoint, bucket) && ParseUrl(endpoint).Some?
    ensures !StartsWith(ParseUrl(endpoint).value.host, bucket + ".")
  {
    NoPrefixOfPart(endpoint, ParseUrl(endpoint).value.host, bucket);
  }

  /** A string that does not occur in s cannot start a part of s. */
  lemma NoPrefixOfPart(s: string, part: string, bucket: string)
    requires !Contains(s, bucket) && Contains(s, part)
    ensures !StartsWith(part, bucket + ".")
  {
    if StartsWith(part, bucket + ".") {
      var i := ContainsOffset(s, part);
      assert part[..|bucket|] == (bucket + ".")[..|bucket|] == bucket;
      assert s[i..][..|bucket|] == s[i..][..|part|][..|bucket|];
      ContainsAt(s, bucket, i);
    }
  }
}
