/** The upload provider: `init(config)` and the operations it returns. */
module Provider {
  import opened Outcomes
  import opened Text
  import opened Endpoint
  import opened Keys
  import opened PublicUrls
  import opened Streams
  import opened Store

  /** The header every upload carries. */
  const PublicReadHeaders: map<string, string> := map["x-amz-acl" := "public-read"]

  /** The file record the host runtime hands over; only `url` is written by the adapter. */
  class StrapiFile {
    const hash: string
    const ext: string
    const mime: string
    const path: Option<string>
    /** The content, as an in-memory buffer, ... */
    const buffer: Option<Bytes>
    /** ... as an open stream, given by the events it will emit, ... */
    const stream: Option<seq<Event>>
    /** ... or as a factory, given by the events of the stream it returns. */
    const getStream: Option<seq<Event>>
    var url: string

    constructor (hash: string, ext: string, mime: string, path: Option<string>, buffer: Option<Bytes>,
                 stream: Option<seq<Event>>, getStream: Option<seq<Event>>, url: string)
      ensures this.hash == hash && this.ext == ext && this.mime == mime && this.path == path
      ensures this.buffer == buffer && this.stream == stream && this.getStream == getStream
      ensures this.url == url
    {
      this.hash, this.ext, this.mime, this.path := hash, ext, mime, path;
      this.buffer, this.stream, this.getStream := buffer, stream, getStream;
      this.url := url;
    }
  }

  /** The content an upload acquires: the buffer if there is one, else the drained stream,
      else the drained stream from the factory; with none of the three, the upload fails. */
  function ContentOf(file: StrapiFile): (r: Settlement<Bytes>)
    ensures file.buffer.Some? ==> r == Fulfilled(file.buffer.value)
    ensures file.buffer.None? && file.stream.Some? ==> r == Drained(file.stream.value)
    ensures file.buffer.None? && file.stream.None? && file.getStream.Some? ==> r == Drained(file.getStream.value)
    ensures r == Rejected(MissingContent) <==> file.buffer.None? && file.stream.None? && file.getStream.None?
  {
    if file.buffer.Some? then Fulfilled(file.buffer.value)
    else if file.stream.Some? then Drained(file.stream.value)
    else if file.getStream.Some? then Drained(file.getStream.value)
    else Rejected(MissingContent)
  }

  class Provider {
    const config: Config
    /** `config.bucket || config.space`. */
    const bucket: Option<string>
    /** The endpoint the client is built with. */
    const finalEndpoint: string
    /** The storage client built at init. */
    const client: ObjectStore

    /** `init(config)`, against a backend whose bucket initially holds `remote`. */
    constructor Init(config: Config, remote: map<string, StoredObject>)
      ensures this.config == config
      ensures bucket == ResolveBucket(config.bucket, config.space)
      ensures NormalizesTo(config.endpoint, bucket, finalEndpoint)
      ensures fresh(client) && client.endpoint == finalEndpoint
      ensures client.objects == remote && client.requests == []
    {
      var b := ResolveBucket(config.bucket, config.space);
      var e := NormalizeEndpoint(config.endpoint, b);
      this.config := config;
      bucket := b;
      finalEndpoint := e;
      client := new ObjectStore(e, remote);
    }

    /** `getFileKey(file)`. */
    function Key(file: StrapiFile): (r: string)
      ensures StartsWith(r, FilePrefix(config.directory)) && EndsWith(r, file.hash + file.ext)
    {
      FileKey(config.directory, file.path, file.hash, file.ext)
    }

    /** `getUrl(key)`: built from the raw configured endpoint. */
    function UrlFor(key: string): (r: string)
      ensures EndsWith(r, "/" + key)
      ensures !Truthy(config.cdnEndpoint) ==>
                r == "https://" + Render(bucket) + "." + StripHttpScheme(config.endpoint) + "/" + key
    {
      PublicUrl(config.cdnEndpoint, bucket, config.endpoint, key)
    }

    /** What one upload of `file` does, from the state before it to the state after: on
        missing content, a stream error or a stream that never settles, nothing is put and the
        URL is unchanged; otherwise exactly one put is made with the derived key, the acquired
        content, the MIME type and the public-read header; a put fault propagates and leaves the
        URL unchanged; a successful put stores the object, then the URL is written onto the file. */
    twostate predicate Uploaded(file: StrapiFile, putFault: Option<string>, new r: Settlement<()>)
      reads this, file, client
    {
      && (ContentOf(file).Rejected? ==> r == Rejected(ContentOf(file).reason))
      && (ContentOf(file).Pending? ==> r == Pending)
      && (!ContentOf(file).Fulfilled? ==>
            && client.objects == old(client.objects) && client.requests == old(client.requests)
            && file.url == old(file.url))
      && (ContentOf(file).Fulfilled? ==>
            client.requests == old(client.requests)
              + [Put(Key(file), ContentOf(file).value, file.mime, PublicReadHeaders)])
      && (ContentOf(file).Fulfilled? && putFault.Some? ==>
            && r == Rejected(ClientError(putFault.value))
            && client.objects == old(client.objects) && file.url == old(file.url))
      && (ContentOf(file).Fulfilled? && putFault.None? ==>
            && r == Fulfilled(())
            && client.objects == old(client.objects)[Key(file) :=
                 StoredObject(ContentOf(file).value, file.mime, PublicReadHeaders)]
            && file.url == UrlFor(Key(file)))
    }

    /** `upload(file)`: derive the key, acquire the content, put it with a public-read ACL and,
        only once the put has succeeded, write the public URL onto the file. */
    method Upload(file: StrapiFile, putFault: Option<string>) returns (r: Settlement<()>)
      modifies file, client
      ensures Uploaded(file, putFault, r)
    {
      var key := Key(file);
      var content: Settlement<Bytes>;
      if file.buffer.Some? {
        content := Fulfilled(file.buffer.value);
      } else if file.stream.Some? {
        content := StreamToBuffer(file.stream.value);
      } else if file.getStream.Some? {
        content := StreamToBuffer(file.getStream.value);
      } else {
        content := Rejected(MissingContent);
      }
      match content {
        case Rejected(reason) =>
          r := Rejected(reason);
        case Pending =>
          r := Pending;
        case Fulfilled(bytes) =>
          var put := client.PutObject(key, bytes, file.mime, PublicReadHeaders, putFault);
          if put.Err? {
            r := Rejected(put.error);
          } else {
            file.url := UrlFor(key);
            r := Fulfilled(());
          }
      }
    }

    /** `uploadStream(file)`: the same operation as `upload`. */
    method UploadStream(file: StrapiFile, putFault: Option<string>) returns (r: Settlement<()>)
      modifies file, client
      ensures Uploaded(file, putFault, r)
    {
      r := Upload(file, putFault);
    }

    /** `delete(file)`: best effort; whatever the client does, the operation succeeds. */
    method Delete(file: StrapiFile, deleteFault: Option<string>) returns (r: Settlement<()>)
      modifies client
      ensures r == Fulfilled(())
      ensures client.requests == old(client.requests) + [Store.Delete(Key(file))]
      ensures deleteFault.None? ==> client.objects == old(client.objects) - {Key(file)}
      ensures deleteFault.Some? ==> client.objects == old(client.objects)
    {
      var _ := client.DeleteObject(Key(file), deleteFault);
      r := Fulfilled(());
    }

    /** `check(file)`: the client's answer, or false when the client fails. */
    method Check(file: StrapiFile, existsFault: Option<string>) returns (found: bool)
      modifies client`requests
      ensures found == (existsFault.None? && Key(file) in client.objects)
      ensures client.requests == old(client.requests) + [Exists(Key(file))]
    {
      var answer := client.ObjectExists(Key(file), existsFault);
      match answer {
        case Ok(answered) => found := answered;
        case Err(_) => found := false;
      }
    }
  }
}
