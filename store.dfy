/** The storage client the adapter drives, reduced to an object store that can fail: each call
    takes a `fault` standing for whatever the network or the backend does to it (None: the call
    succeeds; Some(message): it is rejected with that message). */
module Store {
  import opened Outcomes
  import opened Streams

  /** An object as the backend keeps it. */
  datatype StoredObject = StoredObject(content: Bytes, contentType: string, headers: map<string, string>)

  /** A call the client received, in the order received. */
  datatype Request =
    | Put(key: string, content: Bytes, contentType: string, headers: map<string, string>)
    | Delete(key: string)
    | Exists(key: string)

  class ObjectStore {
    /** The endpoint the client was built with. */
    const endpoint: string
    /** The bucket's objects by key. */
    var objects: map<string, StoredObject>
    /** Every call made on the client so far. */
    var requests: seq<Request>

    constructor (endpoint: string, objects: map<string, StoredObject>)
      ensures this.endpoint == endpoint && this.objects == objects && requests == []
    {
      this.endpoint := endpoint;
      this.objects := objects;
      requests := [];
    }

    /** `putObject(key, content, contentType, undefined, headers)`. */
    method PutObject(key: string, content: Bytes, contentType: string, headers: map<string, string>,
                     fault: Option<string>) returns (r: Result<()>)
      modifies this
      ensures requests == old(requests) + [Put(key, content, contentType, headers)]
      ensures fault.None? ==> r == Ok(()) && objects == old(objects)[key := StoredObject(content, contentType, headers)]
      ensures fault.Some? ==> r == Err(ClientError(fault.value)) && objects == old(objects)
    {
      requests := requests + [Put(key, content, contentType, headers)];
      if fault.None? {
        objects := objects[key := StoredObject(content, contentType, headers)];
        r := Ok(());
      } else {
        r := Err(ClientError(fault.value));
      }
    }

    /** `deleteObject(key)`. Deleting a key that is not there succeeds. */
    method DeleteObject(key: string, fault: Option<string>) returns (r: Result<()>)
      modifies this
      ensures requests == old(requests) + [Delete(key)]
      ensures fault.None? ==> r == Ok(()) && objects == old(objects) - {key}
      ensures fault.Some? ==> r == Err(ClientError(fault.value)) && objects == old(objects)
    {
      requests := requests + [Delete(key)];
      if fault.None? {
        objects := objects - {key};
        r := Ok(());
      } else {
        r := Err(ClientError(fault.value));
      }
    }

    /** `objectExists(key)`. */
    method ObjectExists(key: string, fault: Option<string>) returns (r: Result<bool>)
      modifies this`requests
      ensures requests == old(requests) + [Exists(key)]
      ensures fault.None? ==> r == Ok(key in objects)
      ensures fault.Some? ==> r == Err(ClientError(fault.value))
    {
      requests := requests + [Exists(key)];
      if fault.None? {
        r := Ok(key in objects);
      } else {
        r := Err(ClientError(fault.value));
      }
    }
  }
}
