# S3-compatible upload provider: addressing and operations

A Dafny model of the core of an upload provider for a content-management host. The provider
maps "store this file", "delete this file" and "does this file exist" onto an S3-compatible
object store addressed virtual-hosted style (DigitalOcean Spaces, Cloudflare R2, AWS S3).
The model covers the provider's one source file, `src/index.ts`:

- **Bucket resolution**: `config.bucket`, or the legacy `config.space` when the bucket is empty
  or missing (`Endpoint.ResolveBucket`).
- **Endpoint normalisation**: the endpoint the storage client is built with. The bucket is
  added as a subdomain unless it already occurs anywhere in the endpoint, or the endpoint does
  not parse (`Endpoint.NormalizeEndpoint`, specified by `Endpoint.NormalizesTo`). `new URL` is
  modelled by a small parser (`Urls.ParseUrl`) with a proved round trip (`Urls.ParseFormat`).
- **Key derivation**: the directory with its trailing slashes stripped and one put back, then
  the file's path and a slash, then hash and extension (`Keys.FileKey`).
- **Public URL**: the CDN with at most one trailing slash dropped, or
  `https://<bucket>.<raw endpoint without http(s)://>/<key>` (`PublicUrls.PublicUrl`).
- **Content acquisition**: buffer, else stream, else the stream from `getStream()`. A stream
  is the sequence of events it emits. Reading it (`Streams.StreamToBuffer`, a loop proved
  against the recursive `Streams.Drained`) yields the in-order concatenation of its chunks, a
  rejection on "error", or no settlement at all if it never ends.
- **Facade**: `Provider.Provider`, a class built by `init`. It holds the storage client
  (`Store.ObjectStore`: a map of objects plus the log of every request) and offers
  `Upload`, `UploadStream`, `Delete` and `Check`. Upload writes `file.url` on the caller's
  `StrapiFile` only after the put has succeeded. Delete always succeeds. Check answers `false`
  when the client fails.

Modules, one per component: `Outcomes` (Option, Result, promise settlements, errors, JavaScript
truthiness), `Text` (`startsWith`, `includes` and the three regex replaces), `Urls`,
`Endpoint`, `Keys`, `PublicUrls`, `Streams`, `Store`, `Provider`. `Scenarios` restates the
repository's test cases.

Inputs the model cannot see are parameters. Each storage call takes a `fault: Option<string>`
standing for whatever the network or the backend does: None means the call succeeds, and
`Some(message)` means the client rejects it with that message. The backend's contents at
`init` are an argument of the constructor.

Two behaviours of the code are kept as written:

- The file's `path` is appended as written, unlike the directory (`src/index.ts:82`). So a
  path "avatars/" gives "avatars//" in the key (`Keys.PathKeepsTrailingSlash`).
- The public URL is built from the raw endpoint, not the normalised one (`src/index.ts:90`).
  So a raw endpoint that already carries the bucket as a subdomain gets the bucket twice
  (`PublicUrls.BucketRepeatedForVirtualHostedEndpoint`).

## Model

| member | source | states |
|---|---|---|
| `Endpoint.ResolveBucket` | src/index.ts:54 | the bucket is `bucket` when it is truthy, else `space`; the result is truthy iff either input is |
| `Endpoint.NormalizesTo` | src/index.ts:59-70 | the normalisation rule, as a relation between raw and final endpoint: its meaning is stated by the lemmas in the rows below |
| `Endpoint.NormalizeEndpoint` | src/index.ts:59-70 | the endpoint handed to the client obeys the normalisation rule: raw endpoint when there is no bucket, when the bucket occurs as a substring, when parsing fails, or when the host already starts with "bucket."; otherwise the URL rebuilt from protocol, "//", "bucket.", host and pathname |
| `Endpoint.NormalizedKeepsEndpoint` | src/index.ts:59-70 | with no bucket, with the bucket already in the endpoint, or when the endpoint does not parse, the normalised endpoint is the raw one (the parse failure is swallowed) |
| `Endpoint.NormalizedHostHasBucket` | src/index.ts:61-66 | otherwise, for a bucket free of '/', '?' and '#', the normalised endpoint parses to the raw protocol and pathname around the host prefixed with "bucket.", so its host starts with "bucket." |
| `Endpoint.NormalizedAddsBucket` | src/index.ts:61-66 | normalisation changes the endpoint only when the bucket is truthy and missing from it, and the new endpoint then contains the bucket |
| `Endpoint.NormalizedBareEndpoint` | src/index.ts:62-65 | a bare endpoint `scheme://host` becomes `scheme://bucket.host/`: the parser's "/" pathname is appended |
| `Endpoint.HostGuardHolds` | src/index.ts:61-64 | once the substring test has failed, a host returned verbatim by the parser cannot start with "bucket.", so the host test never keeps the raw endpoint |
| `Urls.ParseUrl` | src/index.ts:62 | a successful parse yields a well-formed URL (protocol "scheme:", delimiter-free non-empty host, pathname starting with "/") whose host occurs in the input |
| `Urls.ParseFormat` | src/index.ts:62-65 | serialising a well-formed URL as protocol + "//" + host + pathname and parsing it again gives back the same parts |
| `Urls.ParseWithoutPath` | src/index.ts:62 | `scheme://host` parses to protocol "scheme:", that host and pathname "/" |
| `Text.StartsWith` | src/index.ts:64 | `startsWith`, defined on prefixes; characterised by `Text.StartsWithSplit` |
| `Text.StartsWithSplit` | src/index.ts:64 | s starts with p exactly when p fits in s and s is p followed by the rest of s |
| `Text.Contains` | src/index.ts:61 | `includes`, defined by recursion on the string; characterised by `Text.ContainsAt` and `Text.ContainsOffset` |
| `Text.ContainsAt` | src/index.ts:61 | an occurrence of sub at any offset of s makes `includes` true |
| `Text.ContainsOffset` | src/index.ts:61 | when `includes` is true, sub occurs at some offset of s (the two lemmas give both directions) |
| `Text.StripTrailingSlashes` | src/index.ts:79 | the result is a prefix of the input that does not end with "/", and everything after it is "/" |
| `Text.StripIgnoresAddedSlashes` | src/index.ts:79 | appending any number of slashes to a string leaves its stripped form unchanged |
| `Text.StripIdempotent` | src/index.ts:79 | stripping twice equals stripping once |
| `Text.StripLeavesSlashes` | src/index.ts:79 | every string is its stripped form followed by slashes only |
| `Text.DropTrailingSlash` | src/index.ts:88 | exactly one trailing "/" is removed when there is one; otherwise the string is unchanged |
| `Text.StripHttpScheme` | src/index.ts:90 | a leading "https://" or "http://" is removed and nothing else; other strings are unchanged |
| `Text.StripHttpSchemeOf` | src/index.ts:90 | "https://" + h and "http://" + h both strip to h |
| `Keys.FilePrefix` | src/index.ts:79 | the prefix is "" iff the directory is absent or empty; otherwise it ends in exactly one "/" and strips to the same stem as the directory |
| `Keys.PathSegment` | src/index.ts:82 | the segment is "" iff the path is absent or empty; otherwise it is the path unchanged followed by "/" |
| `Keys.FileKey` | src/index.ts:81-84 | the key starts with the prefix, ends with hash + ext, and holds exactly the path segment in between |
| `Keys.FileKeyInjective` | src/index.ts:81-84 | within one directory and path, equal keys mean equal hash + ext |
| `Keys.PrefixIgnoresTrailingSlashes` | src/index.ts:79 | a non-empty directory written with any number of extra trailing slashes gives the same prefix |
| `Keys.UploadsPrefix` | src/index.ts:79 | "uploads", "uploads/" and "uploads///" all give "uploads/" |
| `Keys.PathKeepsTrailingSlash` | src/index.ts:82 | a path "avatars/" gives the key "avatars//" + hash + ext |
| `Keys.TestFileKeys` | src/__tests__/provider.test.ts:44-56 | the test file's key is "test-hash.png", or "uploads/test-hash.png" under the directory "uploads" |
| `PublicUrls.PublicUrl` | src/index.ts:86-92 | the URL ends with "/" + key; with a CDN ending in "/" it is cdn + key, with any other CDN cdn + "/" + key; without a CDN it starts with "https://" + bucket + "." |
| `PublicUrls.CdnUrlIgnoresStorage` | src/index.ts:87-89 | with a CDN the URL does not depend on bucket or endpoint |
| `PublicUrls.UrlWithoutCdn` | src/index.ts:90-91 | without a CDN the URL is "https://" + bucket + "." + host + "/" + key whether the raw endpoint is written with "https://", "http://" or no scheme |
| `PublicUrls.BucketRepeatedForVirtualHostedEndpoint` | src/index.ts:90-91 | a raw endpoint "https://bucket.host" gives a URL with "bucket.bucket.host" |
| `PublicUrls.UndefinedBucket` | src/index.ts:91 | with no bucket at all the template writes "undefined" as the subdomain |
| `PublicUrls.TestEndpointUrl` | src/__tests__/provider.test.ts:21-27 | under the test configuration every key's URL is "https://test-space.nyc3.digitaloceanspaces.com/" + key |
| `PublicUrls.TestFileUrl` | src/__tests__/provider.test.ts:44-49 | the key "test-hash.png" gets "https://test-space.nyc3.digitaloceanspaces.com/test-hash.png" |
| `PublicUrls.TestFileUrlInDirectory` | src/__tests__/provider.test.ts:51-56 | the key "uploads/test-hash.png" gets the test base URL followed by that key |
| `PublicUrls.TestFileCdnUrl` | src/__tests__/provider.test.ts:58-63 | with the CDN "https://cdn.example.com" the key gets "https://cdn.example.com/test-hash.png" |
| `Streams.ConcatAppend` | src/index.ts:46 | concatenating chunks and then one more chunk equals concatenating all of them |
| `Streams.Concat` | src/index.ts:46 | `Buffer.concat` of the chunks is empty iff every chunk is empty |
| `Streams.Drained` | src/index.ts:41-48 | reading a stream rejects only with a stream error |
| `Streams.DrainedDelivering` | src/index.ts:44-46 | chunks followed by "end" give their concatenation in arrival order, whatever follows |
| `Streams.DrainedFailing` | src/index.ts:45 | chunks followed by "error" reject with that error, whatever follows |
| `Streams.DrainedOpen` | src/index.ts:42-47 | a stream that only delivers data never settles |
| `Streams.StreamToBuffer` | src/index.ts:41-48 | the listener loop settles exactly as the event-by-event reading `Drained` does |
| `Store.ObjectStore.constructor` | src/index.ts:72-77 | the client is built with the given endpoint and the backend's current objects, with no requests made |
| `Store.ObjectStore.PutObject` | src/index.ts:108-110 | the put is logged with key, content, content type and headers; on success the object is stored under the key, on a fault nothing is stored and the call rejects |
| `Store.ObjectStore.DeleteObject` | src/index.ts:124 | the delete is logged; on success the key is removed, on a fault nothing changes and the call rejects |
| `Store.ObjectStore.ObjectExists` | src/index.ts:132 | the request is logged; on success the answer is whether the key is stored, on a fault the call rejects |
| `Provider.ContentOf` | src/index.ts:97-106 | a buffer wins over both streams; without a buffer, an open stream is read; without either, the factory's stream is read; the upload fails with the missing-content error iff there is no source |
| `Provider.Provider.Init` | src/index.ts:51-77 | the provider resolves the bucket, normalises the endpoint and builds a fresh client on the normalised endpoint |
| `Provider.Provider.Key` | src/index.ts:81-84 | the key of a file starts with the configured directory prefix and ends with its hash and extension |
| `Provider.Provider.UrlFor` | src/index.ts:86-92 | the URL of a key ends with "/" + key; without a CDN it is "https://" + bucket + "." + the raw configured endpoint stripped of its scheme + "/" + key, so the normalised endpoint plays no part |
| `Provider.Provider.Upload` | src/index.ts:94-112 | (the two-state predicate `Uploaded`) on missing content, a stream error or a stream that never settles, nothing is put and the URL is unchanged; otherwise exactly one put is made with the derived key, the acquired content, the MIME type and the public-read header; a put fault propagates and leaves the URL unchanged; a successful put stores the object, then writes the URL for the key onto the file |
| `Provider.Provider.UploadStream` | src/index.ts:118-120 | the same two-state predicate `Uploaded` as `Upload` |
| `Provider.Provider.Delete` | src/index.ts:121-128 | always succeeds; the delete is logged and the key removed unless the client fails; the file is untouched |
| `Provider.Provider.Check` | src/index.ts:129-136 | answers whether the key is stored when the client succeeds and `false` when it fails; only the request log changes, and the file is untouched |
| `Scenarios.TestUploadUrl` | src/__tests__/provider.test.ts:44-49 | the test file under the test configuration gets "https://test-space.nyc3.digitaloceanspaces.com/test-hash.png" |
| `Scenarios.TestUploadUrlInDirectory` | src/__tests__/provider.test.ts:51-56 | with the directory "uploads" it gets the test base URL followed by "uploads/test-hash.png" |
| `Scenarios.TestUploadUrlBehindCdn` | src/__tests__/provider.test.ts:58-63 | with the CDN it gets "https://cdn.example.com/test-hash.png" |
| `Scenarios.UploadThenCheck` | src/index.ts:94-136 | a file with a buffer uploaded without a fault is then found by check, and its URL is the one for its key |

## Left out

- The storage client's internals (request signing, HTTP, region and credentials, `src/index.ts:72-77`) are not part of this model. The client is an abstract store whose calls can fail. `key`, `secret` and `region` are carried in `Config` but have no effect.
- When a call fails, the store is modelled as unchanged. A real backend might have applied a failed request in part.
- `Urls.ParseUrl` is a deliberately small parser, not the WHATWG URL parser. It does not lowercase hosts, drop default ports, apply punycode, parse IPv6 literals, or collapse the extra slashes of special schemes. It also does not accept opaque-path URLs such as "localhost:9000", which the WHATWG parser reads as the scheme "localhost:". Query and fragment are dropped from the pathname, as WHATWG does.
- `Endpoint.HostGuardHolds`: this lemma relies on the parser returning the host exactly as written. Under the WHATWG parser the host test at `src/index.ts:64` can still keep the raw endpoint. For example, host lowercasing can make the host start with "bucket." even though the mixed-case endpoint does not contain the bucket.
- `Endpoint.NormalizedHostHasBucket`: the host-prefix property is proved only for bucket names free of '/', '?' and '#'. With such a character the rebuilt string parses differently. Real bucket names never contain them.
- The endpoint is always a string. A missing endpoint (where `.includes` throws and the catch keeps `undefined`) is not modelled.
- Node stream events and promise scheduling are not modelled. A stream is the finite sequence of events it will emit, and settling on the first "end" or "error" stands for the promise's single settlement. The stream factory is given by the stream it returns, so a `getStream()` that throws is not modelled. Streams being consumed by reading is not modelled either.
- `putObject`'s unused fourth argument (always `undefined`) is not part of the request.
- The unused file metadata (`name`, `width`, `height`, `formats`, `caption`, `size`, `previewUrl`, ...) and the unused config fields (`s3Options` and the passthrough keys) are left out.
- Concurrency between operations is left out. The operations share only the immutable configuration and the client.
