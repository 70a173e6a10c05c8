/** Shared value types: optional JavaScript values, promise settlements and the adapter's errors. */
module Outcomes {

  /** An optional JavaScript value: `undefined` is None. */
  datatype Option<+T> = None | Some(value: T)

  /** The adapter's error conditions. */
  datatype Error =
    | MissingContent                 // no buffer, stream or stream factory on the file: the
                                     // Error "File buffer or stream is missing"
    | StreamError(message: string)   // the content stream emitted "error"
    | ClientError(message: string)   // the storage client's call was rejected

  /** What the storage client's promise settles to. */
  datatype Result<+T> = Ok(value: T) | Err(error: Error)

  /** How one of the adapter's own promises ends: fulfilled, rejected, or never settled
      (a content stream that neither ends nor fails keeps the upload waiting forever). */
  datatype Settlement<+T> = Fulfilled(value: T) | Rejected(reason: Error) | Pending

  /** JavaScript truthiness of an optional string: defined and not "". */
  predicate Truthy(s: Option<string>) {
    s.Some? && s.value != ""
  }

  /** What a template literal `${s}` renders for an optional string. */
  function Render(s: Option<string>): string {
    match s
    case Some(v) => v
    case None => "undefined"
  }
}
