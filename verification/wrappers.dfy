/** Error values and the Result type that stand for Go's `(T, error)` returns. */
module Wrappers {

  /** The errors the collection path can surface: a failed read of the HTTP
      response body (io.ReadAll) or a body that does not decode as the
      expected JSON (json.Unmarshal). The message is carried through unchanged. */
  datatype Error = ReadFailed(message: string) | DecodeFailed(message: string)

  /** A value, or the error that replaced it. */
  datatype Result<+T> = Ok(value: T) | Err(error: Error)
}
